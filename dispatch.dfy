/**
 * The bot's behaviour on values: the process-wide state (the rotation counter,
 * the owner, the uploaded image ids, the bot's own id) together with the
 * outbox of every send made so far, and one function per handler giving the
 * new state. The class in module Server is proved to compute these.
 */
module Dispatch {
  import opened Messenger
  import opened Keywords

  /** The fixed image list uploaded on initialisation, in this order. */
  const Images: seq<string> := [
    "https://pics.me.me/i-could-spat-gopher-a-beer-funny-c3-15199885.png",
    "https://i.pinimg.com/originals/b5/ac/dd/b5acdd83bb12c464bf9d28e107a8fec6.jpg",
    "https://www.memerewards.com/images/2017/12/20/Its__GOPHER_TIME_1513822263b5b3e402ab1a9650.png",
    "https://pics.me.me/vampire-gopher-strikes-again-34149257.png"
  ]

  const InitKeyword: string := "_INIT"
  const GopherPayload: string := "_GOPHER"
  const GoKeywords: seq<string> := ["gopher", "go", "golang"]
  const PythonKeywords: seq<string> := ["python"]
  const JavaKeywords: seq<string> := ["java"]

  const GopherIntroText: string := "Cool! Here's a gopher for you:"
  const PythonText: string := "Go away, you evil person"
  const JavaText: string := "I don't mind coding in Java, as long as it's the island in Indonesia"
  const NotInitializedText: string := "This bot isn't initialized"
  const SummaryPrefix: string := "The bot is initialized, attachment IDs are: "

  const EventReceived: Response := Written(200, "EVENT_RECEIVED")
  const CallbackError: Response := Written(404, "CALLBACK_ERROR")

  /** The globals `counter`, `owner`, `imageIDs`, `me`, and every send so far. */
  datatype State = State(counter: nat, owner: string, imageIDs: seq<string>, me: string, outbox: seq<Send>)

  /** The state of a freshly started process. */
  const Initial: State := State(0, "", [], "", [])

  /** The rotation counter indexes the image list. */
  predicate Valid(st: State) { st.counter < |Images| }

  /** The state after a handler, and whether it panicked on the way. */
  datatype Step = Step(state: State, panicked: bool)

  /** The state after a callback, and what was written back. */
  datatype Outcome = Outcome(state: State, response: Response)

  /** One send appended to the outbox. */
  function Post(st: State, to: string, kind: MessageKind): State {
    st.(outbox := st.outbox + [Send(to, kind)])
  }

  /** sendGopher: an intro text, then the media template for the image at the
      counter, then the counter advances modulo the image list. Indexing the
      id list out of range panics after the intro text was sent. */
  function Gopher(st: State, id: string): (r: Step)
    ensures r.panicked <==> st.counter >= |st.imageIDs|
    ensures r.state.outbox == st.outbox + [Send(id, Text(GopherIntroText))]
      + (if r.panicked then [] else [Send(id, GopherTemplate(st.imageIDs[st.counter]))])
    ensures r.state.owner == st.owner && r.state.imageIDs == st.imageIDs && r.state.me == st.me
    ensures r.state.counter < |Images| || (r.panicked && r.state.counter == st.counter)
  {
    var st1 := Post(st, id, Text(GopherIntroText));
    if st1.counter < |st1.imageIDs| then
      var st2 := Post(st1, id, GopherTemplate(st1.imageIDs[st1.counter]));
      Step(st2.(counter := (st2.counter + 1) % |Images|), false)
    else
      Step(st1, true)
  }

  /** One turn of the upload loop: send the image to the owner and keep the
      attachment id if the platform answered; a failure is skipped. */
  function Upload(st: State, url: string, vendor: Vendor): (r: State)
    ensures r.outbox == st.outbox + [Send(st.owner, Image(url))]
    ensures r.imageIDs == st.imageIDs + (if vendor(|st.outbox|).Success? then [vendor(|st.outbox|).attachmentId] else [])
    ensures r.counter == st.counter && r.owner == st.owner && r.me == st.me
  {
    var r := vendor(|st.outbox|);
    var st1 := Post(st, st.owner, Image(url));
    if r.Success? then st1.(imageIDs := st1.imageIDs + [r.attachmentId]) else st1
  }

  /** The upload loop over `urls`, in order. */
  function UploadAll(st: State, urls: seq<string>, vendor: Vendor): (r: State)
    ensures |r.outbox| == |st.outbox| + |urls| && r.outbox[..|st.outbox|] == st.outbox
    ensures |st.imageIDs| <= |r.imageIDs| <= |st.imageIDs| + |urls| && r.imageIDs[..|st.imageIDs|] == st.imageIDs
    ensures r.counter == st.counter && r.owner == st.owner && r.me == st.me
    decreases |urls|
  {
    if urls == [] then st
    else Upload(UploadAll(st, urls[..|urls| - 1], vendor), urls[|urls| - 1], vendor)
  }

  /** The id list as fmt's %v prints a []string: space-separated, in brackets. */
  function Join(ids: seq<string>): (r: string)
    ensures |r| == if ids == [] then 0 else Width(ids) + |ids| - 1
    decreases |ids|
  {
    if |ids| == 0 then ""
    else if |ids| == 1 then ids[0]
    else Join(ids[..|ids| - 1]) + " " + ids[|ids| - 1]
  }

  /** The total length of the ids. */
  function Width(ids: seq<string>): nat
    decreases |ids|
  {
    if ids == [] then 0 else Width(ids[..|ids| - 1]) + |ids[|ids| - 1]|
  }

  function Summary(ids: seq<string>): (r: string)
    ensures |r| == |SummaryPrefix| + |Join(ids)| + 2
    ensures r[..|SummaryPrefix|] == SummaryPrefix && r[|SummaryPrefix|] == '[' && r[|r| - 1] == ']'
    ensures r[|SummaryPrefix| + 1..|r| - 1] == Join(ids)
  {
    SummaryPrefix + "[" + Join(ids) + "]"
  }

  /** The branches of ProcessMessage. */
  datatype Reply = InitReply | GopherReply | PythonReply | JavaReply | NotInitializedReply

  /** The if-else chain of ProcessMessage: exact "_INIT" first, then the
      keyword families, each of which also needs an owner. */
  function Classify(text: string, owner: string): (r: Reply)
    ensures r == InitReply <==> text == InitKeyword
    ensures r.GopherReply? || r.PythonReply? || r.JavaReply? ==> owner != ""
    ensures owner == "" && text != InitKeyword ==> r == NotInitializedReply
  {
    if text == InitKeyword then InitReply
    else if ContainsAny(text, GoKeywords) && owner != "" then GopherReply
    else if ContainsAny(text, PythonKeywords) && owner != "" then PythonReply
    else if ContainsAny(text, JavaKeywords) && owner != "" then JavaReply
    else NotInitializedReply
  }

  /** ProcessMessage for a message with this sender and text. */
  function OnMessage(st: State, sender: string, text: string, vendor: Vendor): (r: Step)
    ensures r.state.me == st.me
    ensures |st.outbox| <= |r.state.outbox| && r.state.outbox[..|st.outbox|] == st.outbox
    ensures |st.imageIDs| <= |r.state.imageIDs| && r.state.imageIDs[..|st.imageIDs|] == st.imageIDs
    ensures r.panicked ==> Classify(text, st.owner) == GopherReply && st.counter >= |st.imageIDs|
    ensures r.state.owner == (if text == InitKeyword && st.owner == "" then sender else st.owner)
  {
    match Classify(text, st.owner)
    case InitReply =>
      if st.owner != "" then Step(st, false)
      else
        var st1 := UploadAll(st.(owner := sender), Images, vendor);
        Step(Post(st1, sender, Text(Summary(st1.imageIDs))), false)
    case GopherReply => Gopher(st, sender)
    case PythonReply => Step(Post(st, sender, Text(PythonText)), false)
    case JavaReply => Step(Post(st, sender, Text(JavaText)), false)
    case NotInitializedReply => Step(Post(st, sender, Text(NotInitializedText)), false)
  }

  /** The bot learns its own id from the first event it sees. */
  function LearnMe(st: State, ev: Event): (r: State)
    ensures r == st.(me := r.me)
    ensures st.me != "" ==> r.me == st.me
    ensures st.me == "" ==> r.me == ev.recipient
  {
    if st.me == "" then st.(me := ev.recipient) else st
  }

  /** The guard of both dispatch branches: the bot knows itself and the event
      is not an echo of its own send. */
  predicate FromOther(st: State, ev: Event) {
    st.me != "" && ev.sender != st.me
  }

  /** The body of the per-event loop in CallbackHandler. */
  function OnEvent(st: State, ev: Event, vendor: Vendor): (r: Step)
    ensures r.state.me == LearnMe(st, ev).me
    ensures |st.outbox| <= |r.state.outbox| && r.state.outbox[..|st.outbox|] == st.outbox
    ensures r.panicked ==> FromOther(LearnMe(st, ev), ev)
    ensures !FromOther(LearnMe(st, ev), ev) ==> r == Step(LearnMe(st, ev), false)
  {
    var st1 := LearnMe(st, ev);
    if ev.IsMessage() && FromOther(st1, ev) then
      OnMessage(st1, ev.sender, ev.message.value.text, vendor)
    else if ev.IsPostback() && FromOther(st1, ev) then
      if ev.postback.value.payload == GopherPayload then Gopher(st1, ev.sender) else Step(st1, false)
    else
      Step(st1, false)
  }

  /** The events handled in order; a panic abandons the rest. */
  function OnEvents(st: State, evs: seq<Event>, vendor: Vendor): (r: Step)
    ensures |st.outbox| <= |r.state.outbox| && r.state.outbox[..|st.outbox|] == st.outbox
    ensures st.me != "" ==> r.state.me == st.me
    decreases |evs|
  {
    if evs == [] then Step(st, false)
    else
      var before := OnEvents(st, evs[..|evs| - 1], vendor);
      if before.panicked then before else OnEvent(before.state, evs[|evs| - 1], vendor)
  }

  /** The events of all entries, entry by entry. */
  function AllEvents(entries: seq<Entry>): (r: seq<Event>)
    ensures forall ev :: ev in r <==> exists i | 0 <= i < |entries| :: ev in entries[i].events
    decreases |entries|
  {
    if entries == [] then []
    else AllEvents(entries[..|entries| - 1]) + entries[|entries| - 1].events
  }

  /** CallbackHandler on an already decoded callback. */
  function OnCallback(st: State, cb: Callback, vendor: Vendor): (r: Outcome)
    ensures r.response == CallbackError <==> cb.objectType != "page"
    ensures r.response == CallbackError ==> r.state == st
    ensures r.response == EventReceived || r.response == Dropped || r.response == CallbackError
    ensures |st.outbox| <= |r.state.outbox| && r.state.outbox[..|st.outbox|] == st.outbox
  {
    if cb.objectType == "page" then
      var s := OnEvents(st, AllEvents(cb.entries), vendor);
      Outcome(s.state, if s.panicked then Dropped else EventReceived)
    else
      Outcome(st, CallbackError)
  }
}
