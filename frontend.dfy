/** The browser's PDF progress tracker: it opens a WebSocket for a lecture,
    turns the status updates it receives into a progress percentage and a
    status line, and closes the socket when the export is over. The page's
    elements are reduced to what they show. */
module Frontend {
  import opened Text
  import opened Json
  import opened Models
  import Tasks
  import Consumer
  import Routing

  const ServerOrigin := "ws://13.218.104.234:8002/"

  /** The WebSocket URL `initWebSocket` opens for a lecture id. */
  function SocketUrl(lectureId: string): (r: string)
    ensures r == ServerOrigin + Routing.RoutePrefix + lectureId + "/"
  {
    "ws://13.218.104.234:8002/ws/lecture/" + lectureId + "/"
  }

  // ---------------------------------------------------------------------------
  // JavaScript's view of a parsed frame
  // ---------------------------------------------------------------------------

  /** JavaScript truthiness: unlike Python, every array and object is true. */
  predicate JsTruthy(v: Value) {
    match v
    case Null => false
    case Bool(b) => b
    case Num(n) => n != 0
    case Str(s) => s != ""
    case Arr(_) => true
    case Obj(_, _) => true
  }

  /** `${v}` in a template literal. */
  function JsText(v: Value): string
    decreases v
  {
    match v
    case Null => "null"
    case Bool(b) => if b then "true" else "false"
    case Num(n) => IntText(n)
    case Str(s) => s
    case Arr(items) => JsJoin(items)
    case Obj(_, _) => "[object Object]"
  }

  /** `items.join(",")`, which shows `null` as nothing. */
  function JsJoin(items: seq<Value>): string
    decreases items
  {
    if items == [] then ""
    else (if items[0].Null? then "" else JsText(items[0])) + (if |items| > 1 then "," else "") + JsJoin(items[1..])
  }

  /** `data.key`: `undefined` (here `None`) unless `data` is an object with that key. */
  function Property(data: Value, key: string): (r: Option<Value>)
    ensures r.Some? <==> data.Obj? && key in data.fields
    ensures r.Some? ==> r.value == data.fields[key]
  {
    if data.Obj? && key in data.fields then Some(data.fields[key]) else None
  }

  // ---------------------------------------------------------------------------
  // handleProgressUpdate
  // ---------------------------------------------------------------------------

  const ExportingPdf := "Exporting PDF"
  const CreatingLayout := "Creating PDF layout"
  const AddingContent := "Adding content to PDF"
  const SavingFile := "Saving PDF file"
  const PdfReady := "PDF ready"
  const ErrorStatus := "Error"

  /** What the progress bar, the status line and the download link show. */
  datatype Screen = Screen(progress: int, statusText: string, link: Option<Value>)

  /** The screen the page starts with. */
  const Initial := Screen(0, "Initializing...", None)

  /** The percentage each recognised status sets. */
  function ProgressFor(status: Option<Value>): (r: Option<int>)
    ensures r.Some? ==> 0 <= r.value <= 100
    ensures r == Some(100) <==> status == Some(Str(PdfReady))
    ensures r == Some(0) <==> status == Some(Str(ErrorStatus))
  {
    if status == Some(Str(ExportingPdf)) then Some(10)
    else if status == Some(Str(CreatingLayout)) then Some(30)
    else if status == Some(Str(AddingContent)) then Some(60)
    else if status == Some(Str(SavingFile)) then Some(90)
    else if status == Some(Str(PdfReady)) then Some(100)
    else if status == Some(Str(ErrorStatus)) then Some(0)
    else None
  }

  /** The successive stages, in the order the switch lists them, raise the
      progress strictly. */
  lemma StagesAdvance()
    ensures var stages := [ExportingPdf, CreatingLayout, AddingContent, SavingFile, PdfReady];
      forall i, j | 0 <= i < j < |stages| :: ProgressFor(Some(Str(stages[i]))).value < ProgressFor(Some(Str(stages[j]))).value
  {
  }

  /** The status line an `Error` update shows. */
  function ErrorText(message: Option<Value>): string {
    "Error: " + (if message.Some? && JsTruthy(message.value) then JsText(message.value) else "Unknown error")
  }

  /** One update with both the bar and the status line present: the new
      screen, and whether the socket is then closed. */
  function Handle(screen: Screen, data: Value, hasDownload: bool): (r: (Screen, bool))
    // an unrecognised status (or none) changes nothing: the switch has no default
    ensures ProgressFor(Property(data, "status")).None? ==> r == (screen, false)
    ensures ProgressFor(Property(data, "status")).Some? ==> r.0.progress == ProgressFor(Property(data, "status")).value
    // only the two final statuses close the socket
    ensures r.1 <==> Property(data, "status") in {Some(Str(PdfReady)), Some(Str(ErrorStatus))}
    // the link changes only for a ready PDF with a truthy `pdf`, and the button present
    ensures r.0.link != screen.link ==>
      && Property(data, "status") == Some(Str(PdfReady)) && hasDownload
      && Property(data, "pdf").Some? && JsTruthy(Property(data, "pdf").value)
      && r.0.link == Property(data, "pdf")
    ensures Property(data, "status") == Some(Str(PdfReady)) && hasDownload
            && Property(data, "pdf").Some? && JsTruthy(Property(data, "pdf").value) ==>
      r.0.link == Property(data, "pdf")
    // the status line each recognised status shows
    ensures Property(data, "status") == Some(Str(ExportingPdf)) ==> r.0.statusText == "Starting PDF generation..."
    ensures Property(data, "status") == Some(Str(CreatingLayout)) ==> r.0.statusText == "Creating PDF layout..."
    ensures Property(data, "status") == Some(Str(AddingContent)) ==> r.0.statusText == "Adding content to PDF..."
    ensures Property(data, "status") == Some(Str(SavingFile)) ==> r.0.statusText == "Saving PDF file..."
    ensures Property(data, "status") == Some(Str(PdfReady)) ==> r.0.statusText == "PDF ready for download!"
    ensures Property(data, "status") == Some(Str(ErrorStatus)) ==> r.0.statusText == ErrorText(Property(data, "message"))
  {
    var status := Property(data, "status");
    if status == Some(Str(ExportingPdf)) then (screen.(progress := 10, statusText := "Starting PDF generation..."), false)
    else if status == Some(Str(CreatingLayout)) then (screen.(progress := 30, statusText := "Creating PDF layout..."), false)
    else if status == Some(Str(AddingContent)) then (screen.(progress := 60, statusText := "Adding content to PDF..."), false)
    else if status == Some(Str(SavingFile)) then (screen.(progress := 90, statusText := "Saving PDF file..."), false)
    else if status == Some(Str(PdfReady)) then
      var pdf := Property(data, "pdf");
      var link := if hasDownload && pdf.Some? && JsTruthy(pdf.value) then pdf else screen.link;
      (Screen(100, "PDF ready for download!", link), true)
    else if status == Some(Str(ErrorStatus)) then
      (screen.(progress := 0, statusText := ErrorText(Property(data, "message"))), true)
    else (screen, false)
  }

  // ---------------------------------------------------------------------------
  // The tracker
  // ---------------------------------------------------------------------------

  class PDFGenerator {
    /** The open socket, by the URL it was opened for; `None` is `null`. */
    var websocket: Option<string>
    var currentLectureId: Option<string>
    var screen: Screen
    /** The sockets this tracker closed, in order. */
    ghost var closed: seq<string>

    constructor ()
      ensures websocket == None && currentLectureId == None && screen == Initial && closed == []
    {
      websocket := None;
      currentLectureId := None;
      screen := Initial;
      closed := [];
    }

    /** `initWebSocket(lectureId)`: a socket already open is replaced, not closed. */
    method InitWebSocket(lectureId: string)
      modifies this
      ensures currentLectureId == Some(lectureId) && websocket == Some(SocketUrl(lectureId))
      ensures screen == old(screen) && closed == old(closed)
    {
      currentLectureId := Some(lectureId);
      websocket := Some(SocketUrl(lectureId));
    }

    /** `closeWebSocket()`: closes the open socket, if there is one. */
    method CloseWebSocket()
      modifies this
      ensures websocket == None
      ensures closed == old(closed) + (if old(websocket).Some? then [old(websocket).value] else [])
      ensures screen == old(screen) && currentLectureId == old(currentLectureId)
    {
      if websocket.Some? {
        closed := closed + [websocket.value];
        websocket := None;
      }
    }

    /** `handleProgressUpdate(data)`: nothing happens while the bar or the
        status line is missing from the page. */
    method HandleProgressUpdate(data: Value, hasElements: bool, hasDownload: bool)
      modifies this
      ensures currentLectureId == old(currentLectureId)
      ensures !hasElements ==> screen == old(screen) && websocket == old(websocket) && closed == old(closed)
      ensures hasElements ==> screen == Handle(old(screen), data, hasDownload).0
      ensures hasElements && Handle(old(screen), data, hasDownload).1 ==>
        websocket == None && closed == old(closed) + (if old(websocket).Some? then [old(websocket).value] else [])
      ensures hasElements && !Handle(old(screen), data, hasDownload).1 ==> websocket == old(websocket) && closed == old(closed)
    {
      if !hasElements {
        return;
      }
      var (next, closes) := Handle(screen, data, hasDownload);
      screen := next;
      if closes {
        CloseWebSocket();
      }
    }

    /** The socket's `onmessage` as written: the parsed frame itself is taken
        for the update. */
    method OnMessage(frame: Value, hasElements: bool, hasDownload: bool)
      modifies this
      ensures currentLectureId == old(currentLectureId)
      ensures !hasElements ==> screen == old(screen) && websocket == old(websocket) && closed == old(closed)
      ensures hasElements ==> screen == Handle(old(screen), frame, hasDownload).0
      ensures hasElements && Handle(old(screen), frame, hasDownload).1 ==>
        websocket == None && closed == old(closed) + (if old(websocket).Some? then [old(websocket).value] else [])
      ensures hasElements && !Handle(old(screen), frame, hasDownload).1 ==> websocket == old(websocket) && closed == old(closed)
    {
      HandleProgressUpdate(frame, hasElements, hasDownload);
    }

    /** `onmessage` reading the update where the server puts it, under the
        frame's `data`; a frame without `data` changes nothing. */
    method OnServerFrame(frame: Value, hasElements: bool, hasDownload: bool)
      modifies this
      ensures currentLectureId == old(currentLectureId)
      ensures screen == Step(old(screen), frame, hasElements, hasDownload).0
      ensures Step(old(screen), frame, hasElements, hasDownload).1 ==>
        websocket == None && closed == old(closed) + (if old(websocket).Some? then [old(websocket).value] else [])
      ensures !Step(old(screen), frame, hasElements, hasDownload).1 ==> websocket == old(websocket) && closed == old(closed)
    {
      var data := Property(frame, "data");
      if data.Some? {
        HandleProgressUpdate(data.value, hasElements, hasDownload);
      }
    }
  }

  /** The update `OnServerFrame` makes of one frame. */
  function Step(screen: Screen, frame: Value, hasElements: bool, hasDownload: bool): (r: (Screen, bool))
    ensures !hasElements || Property(frame, "data").None? ==> r == (screen, false)
  {
    var data := Property(frame, "data");
    if hasElements && data.Some? then Handle(screen, data.value, hasDownload) else (screen, false)
  }

  // ---------------------------------------------------------------------------
  // The tracker against the frames the server sends
  // ---------------------------------------------------------------------------

  /** The frames a client of the lecture's group receives for a job's effects:
      one per publish, as the consumer forwards it. */
  function FramesOf(effects: seq<Tasks.Effect>): (r: seq<Value>)
    ensures |r| <= |effects|
    ensures forall i | 0 <= i < |r| :: exists e | e in effects && e.Published? :: r[i] == Dict2("event", Str(e.event), "data", e.data)
  {
    if effects == [] then []
    else
      var rest := FramesOf(effects[1..]);
      if effects[0].Published? then [Consumer.ClientFrame(Tasks.Message(effects[0]).message).value] + rest else rest
  }

  /** A server frame, `{event, data}`, has no top-level `status`, so the
      handler as written matches no case and changes nothing. */
  lemma ServerFramesIgnored(e: Tasks.Effect, screen: Screen, hasDownload: bool)
    requires e.Published?
    ensures Handle(screen, Consumer.ClientFrame(Tasks.Message(e).message).value, hasDownload) == (screen, false)
  {
    Consumer.PublishedFrame(e);
  }

  /** The frames of a session, with the page's elements present, until the
      socket closes: the final screen and whether it closed. */
  function Session(screen: Screen, frames: seq<Value>, readsData: bool, hasDownload: bool): (r: (Screen, bool))
    decreases |frames|
  {
    if frames == [] then (screen, false)
    else
      var (next, closes) := if readsData then Step(screen, frames[0], true, hasDownload) else Handle(screen, frames[0], hasDownload);
      if closes then (next, true) else Session(next, frames[1..], readsData, hasDownload)
  }

  /** As written, no sequence of publishes the jobs make moves the bar or
      closes the socket. */
  lemma {:induction false} AsWrittenNeverAdvances(screen: Screen, effects: seq<Tasks.Effect>, hasDownload: bool)
    ensures Session(screen, FramesOf(effects), false, hasDownload) == (screen, false)
    decreases |effects|
  {
    if effects != [] {
      AsWrittenNeverAdvances(screen, effects[1..], hasDownload);
      if effects[0].Published? {
        ServerFramesIgnored(effects[0], screen, hasDownload);
        assert FramesOf(effects)[1..] == FramesOf(effects[1..]);
      }
    }
  }

  /** The frame a client receives for a status publish of lecture `id`. */
  function StatusFrame(data: Value): Value {
    Dict2("event", Str(Tasks.StatusUpdate), "data", data)
  }

  /** A successful export reaches the client as two frames: the start, then
      the ready PDF with its url. */
  lemma ExportFrames(db: Db, id: nat)
    requires KeyedById(db) && id in db
    ensures FramesOf(Tasks.ExportRun(db, id, Tasks.PdfStored).effects)
      == [StatusFrame(Dict1("status", Str(ExportingPdf))),
          StatusFrame(Dict2("status", Str(PdfReady), "pdf", Str(Tasks.MediaUrl + Tasks.PdfName(id))))]
  {
    var e := Tasks.ExportRun(db, id, Tasks.PdfStored).effects;
    assert |e| == 4;
    Consumer.PublishedFrame(e[0]);
    Consumer.PublishedFrame(e[3]);
    assert e[1..][1..] == e[2..] && e[2..][1..] == e[3..] && e[3..][1..] == [];
    assert e[1].Rendered? && e[2].Saved? && e[3].Published?;
    assert FramesOf(e[3..]) == [Consumer.ClientFrame(Tasks.Message(e[3]).message).value];
    assert FramesOf(e[1..]) == FramesOf(e[3..]);
    assert FramesOf(e) == [Consumer.ClientFrame(Tasks.Message(e[0]).message).value] + FramesOf(e[1..]);
  }

  /** Reading `data`, the tracker follows a successful export from the page's
      first screen to 100%, the link to the stored PDF and a closed socket. */
  lemma CorrectedFollowsExport(db: Db, id: nat)
    requires KeyedById(db) && id in db
    ensures var url := Str(Tasks.MediaUrl + Tasks.PdfName(id));
      Session(Initial, FramesOf(Tasks.ExportRun(db, id, Tasks.PdfStored).effects), true, true)
        == (Screen(100, "PDF ready for download!", Some(url)), true)
  {
    ExportFrames(db, id);
    var url := Str(Tasks.MediaUrl + Tasks.PdfName(id));
    FollowsStartThenReady(url);
  }

  lemma FollowsStartThenReady(url: Value)
    requires JsTruthy(url)
    ensures Session(Initial, [StatusFrame(Dict1("status", Str(ExportingPdf))), StatusFrame(Dict2("status", Str(PdfReady), "pdf", url))], true, true)
      == (Screen(100, "PDF ready for download!", Some(url)), true)
  {
    var frames := [StatusFrame(Dict1("status", Str(ExportingPdf))), StatusFrame(Dict2("status", Str(PdfReady), "pdf", url))];
    var first := Screen(10, "Starting PDF generation...", None);
    assert Step(Initial, frames[0], true, true) == (first, false);
    assert frames[1..] == [frames[1]];
    assert Step(first, frames[1], true, true) == (Screen(100, "PDF ready for download!", Some(url)), true);
  }

  /** The socket the tracker opens for lecture `n` reaches the route, and the
      consumer behind it joins the group lecture `n`'s jobs publish to. */
  lemma SocketReachesLectureGroup(n: nat)
    ensures SocketUrl(NatText(n))[|ServerOrigin|..] == Routing.RoutePrefix + NatText(n) + "/"
    ensures Routing.LectureId(SocketUrl(NatText(n))[|ServerOrigin|..]) == Some(NatText(n))
    ensures Consumer.GroupName(NatText(n)) == Tasks.Group(n)
  {
    var url := SocketUrl(NatText(n));
    assert url == ServerOrigin + (Routing.RoutePrefix + NatText(n) + "/");
    Consumer.RoutedConsumerJoinsJobGroup(n);
  }
}
