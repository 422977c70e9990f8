/** The data the dashboard receives from its server, and the calls it makes to it. */
module Domain {

  datatype Option<+T> = None | Some(value: T) {
    /** The value, or `default` when there is none (a JavaScript default parameter or `x || d`). */
    function GetOr(default: T): T {
      match this
      case Some(v) => v
      case None => default
    }
  }

  /** The outcome of one awaited request: the response body, or a rejected promise. */
  datatype Response<+T> = Ok(data: T) | Failed

  /** A top-level spreadsheet as the listing endpoint returns it. */
  datatype Sheet = Sheet(
    id: string,
    name: string,
    modifiedTime: Option<string>,
    owners: Option<seq<string>>,
    preview: seq<seq<string>>)

  /** An inner sheet (worksheet) of a spreadsheet; `gid` is its grid id. */
  datatype Tab = Tab(gid: nat, title: Option<string>, preview: seq<seq<string>>)

  /** Body of `GET /api/sheets`. */
  datatype ListPage = ListPage(items: seq<Sheet>, total: int)

  /** Body of `GET /api/sheets/<id>/tabs`; `items` may be absent. */
  datatype TabsBody = TabsBody(items: Option<seq<Tab>>)

  /** The requests the sheet-browsing components send to the server. */
  datatype Call =
    | ListSheets(page: int, pageSize: int, query: string)   // GET /api/sheets?page=&pageSize=&query=
    | ListTabs(sheetId: string)                              // GET /api/sheets/<id>/tabs
    | RefreshPreview(sheetId: string)                        // POST /api/sheets/<id>/refresh

  /** `data.items || []` after a tabs request, and `[]` when the request failed. */
  function TabsOrEmpty(r: Response<TabsBody>): (tabs: seq<Tab>)
    ensures r.Ok? && r.data.items.Some? ==> tabs == r.data.items.value
    ensures r.Failed? || r.data.items.None? ==> tabs == []
  {
    match r
    case Ok(body) => body.items.GetOr([])
    case Failed => []
  }
}
