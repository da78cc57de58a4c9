/** The entry point of the file-name decipher lambda: classify the SNS
    notification, take the video URL from it, and hand the URL to the art its
    stub names. */
module DecipherApp {
  import opened Results
  import opened Text
  import opened DecipherUtils
  import BattodoTables
  import Battodo
  import DanzanRyu
  import Aikido

  /** The subject and message of one SNS record. */
  datatype Notification = Notification(subject: string, message: string)

  /** The Lambda event: its SNS records. */
  datatype Event = Event(records: seq<Notification>)

  /** `extract_file_url`. The subject keywords are tried in the order
      Complete, Direct, Ingest. A Complete message is JSON whose `hlsUrl` is
      the URL; `readHls` stands for `json.loads(message)["hlsUrl"]` and its
      errors. Ingest notifications carry no URL. */
  function ExtractFileUrl(event: Event, readHls: string -> Result<string>): (r: Result<Option<string>>)
    ensures |event.records| == 0 ==> r == Err(IndexError)
    ensures |event.records| > 0 ==>
      var n := event.records[0];
      && (Contains(n.subject, "Complete") ==>
            (r.Ok? <==> readHls(n.message).Ok?)
            && (r.Ok? ==> r.value == Some(readHls(n.message).value))
            && (r.Err? ==> r.error == readHls(n.message).error))
      && (!Contains(n.subject, "Complete") && Contains(n.subject, "Direct") ==> r == Ok(Some(n.message)))
      && (!Contains(n.subject, "Complete") && !Contains(n.subject, "Direct") && Contains(n.subject, "Ingest") ==>
            r == Ok(None))
      && (!Contains(n.subject, "Complete") && !Contains(n.subject, "Direct") && !Contains(n.subject, "Ingest") ==>
            r == Err(RuntimeError("Unknown notification type: " + n.subject)))
  {
    var n :- PyIndex(event.records, 0);
    if Contains(n.subject, "Complete") then
      var url :- readHls(n.message);
      Ok(Some(url))
    else if Contains(n.subject, "Direct") then Ok(Some(n.message))
    else if Contains(n.subject, "Ingest") then Ok(None)
    else Err(RuntimeError("Unknown notification type: " + n.subject))
  }

  /** The three arts a stub can name. */
  datatype Art = DanzanRyu | Battodo | Aikido

  /** What `lambda_handler` does with an event: nothing, or pass the URL to
      one art's handler. */
  datatype Action = Nothing | Dispatch(art: Art, url: string)

  /** The art the first letter of a stub names: `d`, `b` or `a`. */
  function ArtOf(stem: string): (r: Option<Art>)
    ensures r == Some(DanzanRyu) <==> |stem| > 0 && stem[0] == 'd'
    ensures r == Some(Battodo) <==> |stem| > 0 && stem[0] == 'b'
    ensures r == Some(Aikido) <==> |stem| > 0 && stem[0] == 'a'
  {
    if StartsWith(stem, "d") then Some(DanzanRyu)
    else if StartsWith(stem, "b") then Some(Battodo)
    else if StartsWith(stem, "a") then Some(Aikido)
    else None
  }

  /** The routing of `lambda_handler`: no URL, or an empty one (Python treats
      it as false), means nothing is done; otherwise the lower-cased stub
      chooses the art, and any other first letter is an error. */
  function Route(event: Event, readHls: string -> Result<string>): (r: Result<Action>)
    ensures ExtractFileUrl(event, readHls).Err? ==> r == Err(ExtractFileUrl(event, readHls).error)
    ensures ExtractFileUrl(event, readHls) == Ok(None) || ExtractFileUrl(event, readHls) == Ok(Some("")) ==> r == Ok(Nothing)
    ensures ExtractFileUrl(event, readHls).Ok? && ExtractFileUrl(event, readHls).value.Some? ==>
      var url := ExtractFileUrl(event, readHls).value.value;
      url != "" && ArtOf(GetStub(url)).Some? ==> r == Ok(Dispatch(ArtOf(GetStub(url)).value, url))
    ensures r.Ok? && r.value.Dispatch? ==>
      && ExtractFileUrl(event, readHls) == Ok(Some(r.value.url))
      && r.value.url != ""
      && ArtOf(GetStub(r.value.url)) == Some(r.value.art)
    ensures r.Err? && ExtractFileUrl(event, readHls).Ok? ==>
      var url := ExtractFileUrl(event, readHls).value;
      && url.Some? && url.value != "" && ArtOf(GetStub(url.value)).None?
      && r.error == RuntimeError("Invalid video file name: " + GetStub(url.value))
  {
    var url :- ExtractFileUrl(event, readHls);
    if url.None? || url.value == "" then Ok(Nothing)
    else
      var stem := GetStub(url.value);
      match ArtOf(stem)
      case Some(art) => Ok(Dispatch(art, url.value))
      case None => Err(RuntimeError("Invalid video file name: " + stem))
  }

  /** Everything outside the model that the handlers consult: the Aikido
      tables, the DynamoDB table of each art (a query by scroll name), and
      the status each art's write returns. */
  datatype Backend = Backend(
    aikidoScrolls: map<nat, string>,
    aikidoRegex: map<string, Aikido.Finder>,
    danzanRyuQuery: string -> QueryResponse,
    battodoQuery: string -> QueryResponse,
    aikidoQuery: string -> QueryResponse,
    putStatus: int)

  /** The chosen art's handler (`handle_danzan_ryu`, `handle_battodo` or
      `handle_aikido`). */
  function RunArt(art: Art, url: string, db: Backend): Result<ScrollRecord> {
    match art
    case DanzanRyu => DanzanRyu.HandleDanzanRyu(url, db.danzanRyuQuery, db.putStatus)
    case Battodo => Battodo.HandleBattodo(url, db.battodoQuery, db.putStatus)
    case Aikido => Aikido.HandleAikido(url, db.aikidoScrolls, db.aikidoRegex, db.aikidoQuery, db.putStatus)
  }

  /** `lambda_handler`: route the event, then run the chosen art's handler;
      the result is the record written back, if any. */
  function LambdaHandler(event: Event, readHls: string -> Result<string>, db: Backend): (r: Result<Option<ScrollRecord>>)
    ensures Route(event, readHls).Err? ==> r == Err(Route(event, readHls).error)
    ensures Route(event, readHls) == Ok(Nothing) ==> r == Ok(None)
    ensures Route(event, readHls).Ok? && Route(event, readHls).value.Dispatch? ==>
      var d := Route(event, readHls).value;
      r == Written(RunArt(d.art, d.url, db))
  {
    var action :- Route(event, readHls);
    match action
    case Nothing => Ok(None)
    case Dispatch(art, url) => Written(RunArt(art, url, db))
  }

  /** A handler's outcome as the lambda's: the record written, or the error. */
  function Written(outcome: Result<ScrollRecord>): (r: Result<Option<ScrollRecord>>)
    ensures r.Ok? <==> outcome.Ok?
    ensures r.Ok? ==> r.value == Some(outcome.value)
    ensures r.Err? ==> r.error == outcome.error
  {
    var record :- outcome;
    Ok(Some(record))
  }

  /** A URL routed to Battodo has a stub starting with `b`, and the Battodo
      handler reads its scroll letter from that same position, so the only
      Battodo scroll the lambda can reach is `tameshigiri`. */
  lemma BattodoOnlyTameshigiri(event: Event, readHls: string -> Result<string>, db: Backend)
    requires Route(event, readHls).Ok? && Route(event, readHls).value.Dispatch?
    requires Route(event, readHls).value.art == Battodo
    ensures var url := Route(event, readHls).value.url;
      var stub := GetStub(url);
      && |stub| > 0 && [stub[0]] in BattodoTables.ScrollDict && BattodoTables.ScrollDict[[stub[0]]] == "tameshigiri"
      && (Battodo.HandleBattodo(url, db.battodoQuery, db.putStatus).Ok? ==>
            Battodo.HandleBattodo(url, db.battodoQuery, db.putStatus)
            == Battodo.UpdateDdb("tameshigiri", stub, db.battodoQuery("tameshigiri"), url))
  {
    BattodoTables.ScrollDictLetters();
  }
}
