/**
 * The fixed German label table the control puts in front of the host's
 * resource lookup, and the host resources object whose `getString` it
 * replaces.
 */
module Resources {

  const GermanLabels: map<string, string> := map[
    "ThumbnailSizePixel_Disp" := "Thumbnail Größe (px)",
    "ThumbnailSizePixel_Desc" := "Die Größe des Thumbnails in Pixeln",
    "Records_Dataset_Display" := "Datensätze",
    "FilteredRecordCount_Disp" := "Gefilterte Datensatzanzahl",
    "FilteredRecordCount_Desc" := "Anzahl der Datensätze nach dem Filtern",
    "HighlightValue_Disp" := "Hervorhebungswert",
    "HighlightValue_Desc" := "Der Wert, der angibt, dass eine Zeile hervorgehoben werden soll",
    "HighlightColor_Disp" := "Hervorhebungsfarbe",
    "HighlightColor_Desc" := "Die Farbe zum Hervorheben einer Zeile",
    "HighlightIndicator_Disp" := "Hervorhebungsindikator-Feld",
    "HighlightIndicator_Desc" := "Legen Sie den Namen des Feldes fest, das mit dem Hervorhebungswert verglichen werden soll",
    "Label_Grid_Footer" := "Seite {0}",
    "Label_SortAZ" := "A bis Z",
    "Label_SortZA" := "Z bis A",
    "Label_DoesNotContainData" := "Enthält keine Daten",
    "Label_Grid_Footer_RecordCount" := "{0} Datensätze ({1} ausgewählt)",
    "SubGridHeight_Disp" := "Untergitter-Höhe (leer lassen, wenn nicht zum Formular hinzugefügt)",
    "SubGridHeight_Desc" := "Die Höhe in Pixel, um das Gitter darzustellen, wenn es auf einem Formular-Untergitter konfiguriert ist. Leer lassen, wenn nicht zum Formular hinzugefügt.",
    "Label_NoRecords" := "Keine Datensätze gefunden"
  ]

  /**
   * `germanLabels[key] || originalGetString(key)`: a table entry wins over
   * the host, every other key goes to the host. (An empty table entry would
   * fall through to the host; the table has none.)
   */
  function OverriddenGetString(original: string -> string, key: string): (r: string)
    ensures key in GermanLabels ==> r == GermanLabels[key] && r != ""
    ensures key !in GermanLabels ==> r == original(key)
  {
    if key in GermanLabels && GermanLabels[key] != "" then GermanLabels[key] else original(key)
  }

  /** The host's resources object; `getString` is the member the control reassigns. */
  class HostResources {
    var getString: string -> string

    constructor (getString: string -> string)
      ensures this.getString == getString
    {
      this.getString := getString;
    }
  }
}
