/** Server-side download jobs (Models/Download.swift): the status enumeration and its mappings. */
module DownloadModel {
  import opened Wrappers
  import opened Text

  datatype DownloadStatus = Searching | Downloading | Completed | Failed | Cancelled | Unknown

  /** The Swift raw value of each case: its name in lower case. */
  function RawValue(st: DownloadStatus): string {
    match st
    case Searching => "searching"
    case Downloading => "downloading"
    case Completed => "completed"
    case Failed => "failed"
    case Cancelled => "cancelled"
    case Unknown => "unknown"
  }

  /**
   * `DownloadStatus.init(rawValue:)`: total and case-insensitive; both
   * spellings of "cancelled" are accepted and anything else is `unknown`.
   */
  function ParseStatus(raw: string): (st: DownloadStatus)
    ensures st == Searching <==> Lower(raw) == "searching"
    ensures st == Downloading <==> Lower(raw) == "downloading"
    ensures st == Completed <==> Lower(raw) == "completed"
    ensures st == Failed <==> Lower(raw) == "failed"
    ensures st == Cancelled <==> Lower(raw) == "cancelled" || Lower(raw) == "canceled"
    ensures st == Unknown <==> Lower(raw) !in {"searching", "downloading", "completed", "failed", "cancelled", "canceled"}
  {
    var key := Lower(raw);
    if key == "searching" then Searching
    else if key == "downloading" then Downloading
    else if key == "completed" then Completed
    else if key == "failed" then Failed
    else if key == "cancelled" || key == "canceled" then Cancelled
    else Unknown
  }

  lemma LowerOfLower(s: string)
    requires forall i :: 0 <= i < |s| ==> !('A' <= s[i] <= 'Z')
    ensures Lower(s) == s
  {
  }

  /** Every case survives the trip through its raw value, `unknown` included. */
  lemma ParseRawValue(st: DownloadStatus)
    ensures ParseStatus(RawValue(st)) == st
  {
    LowerOfLower(RawValue(st));
  }

  /** Upper-case spellings are accepted too. */
  lemma ParseUpperCase()
    ensures ParseStatus("COMPLETED") == Completed
    ensures ParseStatus("Canceled") == Cancelled
    ensures ParseStatus("done") == Unknown
  {
    assert Lower("COMPLETED") == "completed";
    assert Lower("Canceled") == "canceled";
    assert Lower("done") == "done";
  }

  /** `DownloadStatus.displayName`. */
  function DisplayName(st: DownloadStatus): string {
    match st
    case Searching => "Searching"
    case Downloading => "Downloading"
    case Completed => "Completed"
    case Failed => "Failed"
    case Cancelled => "Cancelled"
    case Unknown => "Unknown"
  }

  /** Each case has its own label. */
  lemma DisplayNameInjective(a: DownloadStatus, b: DownloadStatus)
    requires DisplayName(a) == DisplayName(b)
    ensures a == b
  {
  }

  /** `DownloadStatus.tint`, the colour role named in the asset catalogue. */
  function Tint(st: DownloadStatus): (t: string)
    ensures t == "success" <==> st == Completed
    ensures t == "destructive" <==> st == Failed
    ensures t == "accent" <==> st == Searching || st == Downloading
    ensures t == "secondary" <==> st == Cancelled || st == Unknown
  {
    match st
    case Completed => "success"
    case Failed => "destructive"
    case Cancelled => "secondary"
    case Searching | Downloading => "accent"
    case Unknown => "secondary"
  }

  datatype DownloadItem = DownloadItem(
    id: string,
    title: string,
    artist: string,
    album: Option<string>,
    statusRaw: string,
    progress: Option<int>,
    createdAt: Option<string>,
    completedAt: Option<string>,
    playlistId: Option<int>,
    userId: Option<int>,
    filePath: Option<string>)

  /** `DownloadItem.status`: whatever the server sent, parsing never fails. */
  function Status(item: DownloadItem): (st: DownloadStatus)
    ensures st == ParseStatus(item.statusRaw)
    ensures st != Unknown ==> ParseStatus(RawValue(st)) == st && Lower(item.statusRaw) in {RawValue(st), "canceled"}
  {
    ParseRawValue(ParseStatus(item.statusRaw));
    ParseStatus(item.statusRaw)
  }
}
