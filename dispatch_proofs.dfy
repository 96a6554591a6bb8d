/**
 * Properties of the bot's behaviour, stated over the value-level model in
 * module Dispatch.
 */
module DispatchProofs {
  import opened Messenger
  import opened Keywords
  import opened Dispatch

  // ---------------------------------------------------------------------
  // Composition: events are handled one after the other, in array order.
  // ---------------------------------------------------------------------

  /** Handling `a + b` is handling `a` and then, unless that panicked, `b`. */
  lemma {:induction false} OnEventsAppend(st: State, a: seq<Event>, b: seq<Event>, vendor: Vendor)
    ensures OnEvents(st, a + b, vendor) ==
      var r := OnEvents(st, a, vendor);
      if r.panicked then r else OnEvents(r.state, b, vendor)
    decreases |b|
  {
    if b == [] {
      assert a + b == a;
    } else {
      OnEventsAppend(st, a, b[..|b| - 1], vendor);
      assert (a + b)[..|a + b| - 1] == a + b[..|b| - 1];
      assert (a + b)[|a + b| - 1] == b[|b| - 1];
    }
  }

  /** The events of the entries of `a + b` are those of `a`, then those of `b`. */
  lemma {:induction false} AllEventsAppend(a: seq<Entry>, b: seq<Entry>)
    ensures AllEvents(a + b) == AllEvents(a) + AllEvents(b)
    decreases |b|
  {
    if b == [] {
      assert a + b == a;
    } else {
      AllEventsAppend(a, b[..|b| - 1]);
      assert (a + b)[..|a + b| - 1] == a + b[..|b| - 1];
      assert (a + b)[|a + b| - 1] == b[|b| - 1];
    }
  }

  /** Handling one more event of the current entry. */
  lemma OnEventsSnoc(st: State, done: seq<Event>, events: seq<Event>, j: nat, vendor: Vendor)
    requires j < |events|
    ensures OnEvents(st, done + events[..j + 1], vendor) ==
      var r := OnEvents(st, done + events[..j], vendor);
      if r.panicked then r else OnEvent(r.state, events[j], vendor)
  {
    assert (done + events[..j + 1])[..|done + events[..j + 1]| - 1] == done + events[..j];
    assert (done + events[..j + 1])[|done + events[..j + 1]| - 1] == events[j];
  }

  /** The events of the first `i + 1` entries. */
  lemma AllEventsSnoc(entries: seq<Entry>, i: nat)
    requires i < |entries|
    ensures AllEvents(entries[..i + 1]) == AllEvents(entries[..i]) + entries[i].events
  {
    assert entries[..i + 1][..i] == entries[..i];
  }

  /** A panic at event `j` of entry `i` is where the whole callback stops. */
  lemma PanicAbandonsRest(st: State, entries: seq<Entry>, i: nat, j: nat, vendor: Vendor)
    requires i < |entries| && j < |entries[i].events|
    requires OnEvents(st, AllEvents(entries[..i]) + entries[i].events[..j + 1], vendor).panicked
    ensures OnEvents(st, AllEvents(entries), vendor) ==
      OnEvents(st, AllEvents(entries[..i]) + entries[i].events[..j + 1], vendor)
  {
    var events := entries[i].events;
    var pre := AllEvents(entries[..i]);
    var tail := AllEvents(entries[i + 1..]);
    EventsSplit(entries, i, j);
    assert AllEvents(entries) == (pre + events[..j + 1]) + (events[j + 1..] + tail);
    OnEventsAppend(st, pre + events[..j + 1], events[j + 1..] + tail, vendor);
  }

  lemma EventsSplit(entries: seq<Entry>, i: nat, j: nat)
    requires i < |entries| && j < |entries[i].events|
    ensures AllEvents(entries) ==
      (AllEvents(entries[..i]) + entries[i].events[..j + 1]) + (entries[i].events[j + 1..] + AllEvents(entries[i + 1..]))
  {
    var events := entries[i].events;
    assert entries == entries[..i + 1] + entries[i + 1..];
    AllEventsAppend(entries[..i + 1], entries[i + 1..]);
    AllEventsSnoc(entries, i);
    assert events == events[..j + 1] + events[j + 1..];
  }

  // ---------------------------------------------------------------------
  // The reply classifier.
  // ---------------------------------------------------------------------

  /** The summary's id list reads left to right: no ids print as nothing, one
      id as itself, and a first id is followed by one space and the rest. */
  lemma {:induction false} JoinLayout(x: string, rest: seq<string>)
    ensures Join([]) == "" && Join([x]) == x
    ensures rest != [] ==> Join([x] + rest) == x + " " + Join(rest)
    decreases |rest|
  {
    var ids := [x] + rest;
    if |rest| == 1 {
      assert ids[..|ids| - 1] == [x];
    } else if |rest| > 1 {
      var init := rest[..|rest| - 1];
      JoinLayout(x, init);
      assert ids[..|ids| - 1] == [x] + init;
    }
  }

  /** First match wins, in the order "_INIT" (exact, case-sensitive), the
      go family (which amounts to "go" in the lower-cased text), "python",
      "java"; the three keyword branches need an owner, and everything else
      gets the not-initialised text. */
  lemma ClassifyFirstMatch(text: string, owner: string)
    ensures
      var go := IsSubstring("go", Lower(text));
      var python := IsSubstring("python", Lower(text));
      var java := IsSubstring("java", Lower(text));
      var reply := Classify(text, owner);
      && (reply == InitReply <==> text == InitKeyword)
      && (reply == GopherReply <==> text != InitKeyword && owner != "" && go)
      && (reply == PythonReply <==> text != InitKeyword && owner != "" && !go && python)
      && (reply == JavaReply <==> text != InitKeyword && owner != "" && !go && !python && java)
      && (reply == NotInitializedReply <==>
            text != InitKeyword && (owner == "" || (!go && !python && !java)))
  {
    GoFamilyIsGo(text);
    SingleKeyword(text, "python");
    SingleKeyword(text, "java");
  }

  // ---------------------------------------------------------------------
  // Initialisation: the "_INIT" message.
  // ---------------------------------------------------------------------

  /** The image sends of the upload loop, one per URL, in order. */
  function ImageSends(to: string, urls: seq<string>): seq<Send> {
    seq(|urls|, i requires 0 <= i < |urls| => Send(to, Image(urls[i])))
  }

  /** The ids kept from the platform's answers to sends `base` .. `base + n - 1`:
      one per success, in order; failures leave no trace. */
  function Uploaded(vendor: Vendor, base: nat, n: nat): seq<string>
    decreases n
  {
    if n == 0 then []
    else
      var r := vendor(base + n - 1);
      Uploaded(vendor, base, n - 1) + (if r.Success? then [r.attachmentId] else [])
  }

  /** At most one id per send, and exactly one per send when every send succeeded. */
  lemma {:induction false} UploadedCount(vendor: Vendor, base: nat, n: nat)
    ensures |Uploaded(vendor, base, n)| <= n
    ensures |Uploaded(vendor, base, n)| == n <==> forall k | base <= k < base + n :: vendor(k).Success?
    decreases n
  {
    if n > 0 {
      UploadedCount(vendor, base, n - 1);
    }
  }

  /** The upload loop sends every image, in order, whatever the answers, and
      appends exactly the ids of the successful sends. */
  lemma {:induction false} UploadAllEffect(st: State, urls: seq<string>, vendor: Vendor)
    ensures UploadAll(st, urls, vendor) == st.(
      outbox := st.outbox + ImageSends(st.owner, urls),
      imageIDs := st.imageIDs + Uploaded(vendor, |st.outbox|, |urls|))
    decreases |urls|
  {
    if urls == [] {
      assert st.outbox + ImageSends(st.owner, urls) == st.outbox;
      assert st.imageIDs + Uploaded(vendor, |st.outbox|, 0) == st.imageIDs;
    } else {
      var init := urls[..|urls| - 1];
      UploadAllEffect(st, init, vendor);
      assert ImageSends(st.owner, urls) == ImageSends(st.owner, init) + [Send(st.owner, Image(urls[|urls| - 1]))];
    }
  }

  /** "_INIT" when the bot has an owner changes nothing and sends nothing;
      otherwise the sender becomes the owner, each image is sent to them in
      list order, the ids of the successful sends are appended, and one
      summary text ends the reply. */
  lemma InitMessage(st: State, sender: string, vendor: Vendor)
    ensures st.owner != "" ==> OnMessage(st, sender, InitKeyword, vendor) == Step(st, false)
    ensures st.owner == "" ==>
      var ids := st.imageIDs + Uploaded(vendor, |st.outbox|, |Images|);
      OnMessage(st, sender, InitKeyword, vendor) == Step(st.(
        owner := sender,
        imageIDs := ids,
        outbox := st.outbox + ImageSends(sender, Images) + [Send(sender, Text(Summary(ids)))]), false)
  {
    if st.owner == "" {
      UploadAllEffect(st.(owner := sender), Images, vendor);
    }
  }

  // ---------------------------------------------------------------------
  // The gopher reply and the rotation counter.
  // ---------------------------------------------------------------------

  /** `n` gopher replies in a row to `id`; a panic ends the run. */
  function Gophers(st: State, id: string, n: nat): (r: Step)
    ensures r.state.owner == st.owner && r.state.imageIDs == st.imageIDs && r.state.me == st.me
    decreases n
  {
    if n == 0 then Step(st, false)
    else
      var before := Gophers(st, id, n - 1);
      if before.panicked then before else Gopher(before.state, id)
  }

  /** The counter after `n` gopher replies from `c`: one step modulo the
      image list per reply. */
  function Rotate(c: nat, n: nat): (r: nat)
    requires c < |Images|
    ensures r < |Images|
    decreases n
  {
    if n == 0 then c else (Rotate(c, n - 1) + 1) % |Images|
  }

  lemma ModSucc(x: nat)
    ensures (x % 4 + 1) % 4 == (x + 1) % 4
  {
  }

  /** After n replies from c the counter is (c + n) mod 4. */
  lemma {:induction false} RotateIsMod(c: nat, n: nat)
    requires c < |Images|
    ensures Rotate(c, n) == (c + n) % |Images|
    decreases n
  {
    if n > 0 {
      RotateIsMod(c, n - 1);
      ModSucc(c + n - 1);
    }
  }

  /** The sends of `n` gopher replies starting at counter `c`: each is the
      intro text, then the template for the id at the counter. */
  function RotationSends(id: string, ids: seq<string>, c: nat, n: nat): seq<Send>
    requires |ids| >= |Images| && c < |Images|
    decreases n
  {
    if n == 0 then []
    else
      RotationSends(id, ids, c, n - 1)
        + [Send(id, Text(GopherIntroText)), Send(id, GopherTemplate(ids[Rotate(c, n - 1)]))]
  }

  /** With an id for every image, gopher replies never panic: each sends two
      messages, the counter advances one step per reply and nothing else
      changes. */
  lemma {:induction false} GopherRotation(st: State, id: string, n: nat)
    requires Valid(st) && |st.imageIDs| >= |Images|
    ensures Gophers(st, id, n) == Step(st.(
      counter := Rotate(st.counter, n),
      outbox := st.outbox + RotationSends(id, st.imageIDs, st.counter, n)), false)
    decreases n
  {
    if n == 0 {
      assert st.outbox + RotationSends(id, st.imageIDs, st.counter, 0) == st.outbox;
    } else {
      GopherRotation(st, id, n - 1);
      var prev := Gophers(st, id, n - 1);
      var sends := RotationSends(id, st.imageIDs, st.counter, n - 1);
      var c := Rotate(st.counter, n - 1);
      var t := Send(id, Text(GopherIntroText));
      var g := Send(id, GopherTemplate(st.imageIDs[c]));
      assert prev == Step(st.(counter := c, outbox := st.outbox + sends), false);
      assert Gophers(st, id, n) == Gopher(prev.state, id);
      GopherReady(prev.state, id);
      assert RotationSends(id, st.imageIDs, st.counter, n) == sends + [t, g];
      assert (st.outbox + sends) + [t, g] == st.outbox + (sends + [t, g]);
    }
  }

  /** One gopher reply when the counter has an id. */
  lemma GopherReady(st: State, id: string)
    requires Valid(st) && |st.imageIDs| >= |Images|
    ensures Gopher(st, id) == Step(st.(
      counter := (st.counter + 1) % |Images|,
      outbox := st.outbox + [Send(id, Text(GopherIntroText)), Send(id, GopherTemplate(st.imageIDs[st.counter]))]), false)
  {
    assert st.outbox + [Send(id, Text(GopherIntroText))] + [Send(id, GopherTemplate(st.imageIDs[st.counter]))]
      == st.outbox + [Send(id, Text(GopherIntroText)), Send(id, GopherTemplate(st.imageIDs[st.counter]))];
  }

  /** Reply number k (from 0) of a run sends the intro text first and then the
      template with the id at (c + k) mod 4: indices 0, 1, 2, 3, 0, 1, ... */
  lemma {:induction false} RotationSendsAt(id: string, ids: seq<string>, c: nat, n: nat, k: nat)
    requires |ids| >= |Images| && c < |Images| && k < n
    ensures |RotationSends(id, ids, c, n)| == 2 * n
    ensures RotationSends(id, ids, c, n)[2 * k] == Send(id, Text(GopherIntroText))
    ensures RotationSends(id, ids, c, n)[2 * k + 1] == Send(id, GopherTemplate(ids[(c + k) % |Images|]))
    decreases n
  {
    RotateIsMod(c, k);
    if k < n - 1 {
      RotationSendsAt(id, ids, c, n - 1, k);
    } else if n > 1 {
      RotationSendsAt(id, ids, c, n - 1, 0);
    }
  }

  /** Six replies from a fresh counter use the ids at 0, 1, 2, 3, 0, 1. */
  lemma SixRepliesCycle(st: State, id: string)
    requires st.counter == 0 && |st.imageIDs| == |Images|
    ensures
      var ids := st.imageIDs;
      var t := Send(id, Text(GopherIntroText));
      Gophers(st, id, 6).state.outbox == st.outbox + [
        t, Send(id, GopherTemplate(ids[0])), t, Send(id, GopherTemplate(ids[1])),
        t, Send(id, GopherTemplate(ids[2])), t, Send(id, GopherTemplate(ids[3])),
        t, Send(id, GopherTemplate(ids[0])), t, Send(id, GopherTemplate(ids[1]))]
  {
    GopherRotation(st, id, 6);
    SixSends(id, st.imageIDs);
  }

  /** Once the bot knows itself, a run of `_GOPHER` postbacks from one other
      user is a run of gopher replies to that user. */
  lemma {:induction false} GopherPostbacks(st: State, sender: string, evs: seq<Event>, vendor: Vendor)
    requires st.me != "" && sender != st.me
    requires forall k | 0 <= k < |evs| ::
      evs[k].sender == sender && !evs[k].IsMessage() && evs[k].IsPostback() && evs[k].postback.value.payload == GopherPayload
    ensures OnEvents(st, evs, vendor) == Gophers(st, sender, |evs|)
    decreases |evs|
  {
    if evs != [] {
      var init := evs[..|evs| - 1];
      GopherPostbacks(st, sender, init, vendor);
      assert |init| == |evs| - 1;
    }
  }

  /** The counter after each of the first five replies from 0. */
  lemma RotateFromZero()
    ensures Rotate(0, 1) == 1 && Rotate(0, 2) == 2 && Rotate(0, 3) == 3
    ensures Rotate(0, 4) == 0 && Rotate(0, 5) == 1
  {
    assert |Images| == 4;
  }

  /** The first four replies from counter 0 walk the id list once. */
  lemma FourSends(id: string, ids: seq<string>)
    requires |ids| == |Images|
    ensures
      var t := Send(id, Text(GopherIntroText));
      RotationSends(id, ids, 0, 4) == [
        t, Send(id, GopherTemplate(ids[0])), t, Send(id, GopherTemplate(ids[1])),
        t, Send(id, GopherTemplate(ids[2])), t, Send(id, GopherTemplate(ids[3]))]
  {
    RotateFromZero();
  }

  /** The next two replies wrap around to ids 0 and 1. */
  lemma SixSends(id: string, ids: seq<string>)
    requires |ids| == |Images|
    ensures
      var t := Send(id, Text(GopherIntroText));
      RotationSends(id, ids, 0, 6) == [
        t, Send(id, GopherTemplate(ids[0])), t, Send(id, GopherTemplate(ids[1])),
        t, Send(id, GopherTemplate(ids[2])), t, Send(id, GopherTemplate(ids[3])),
        t, Send(id, GopherTemplate(ids[0])), t, Send(id, GopherTemplate(ids[1]))]
  {
    FourSends(id, ids);
    RotateFromZero();
    var t := Send(id, Text(GopherIntroText));
    var g0, g1 := Send(id, GopherTemplate(ids[0])), Send(id, GopherTemplate(ids[1]));
    var four := RotationSends(id, ids, 0, 4);
    assert RotationSends(id, ids, 0, 6) == four + [t, g0] + [t, g1];
  }

  lemma {:induction false} ShortListPrefix(st: State, id: string, n: nat)
    requires st.counter == 0 && n <= |st.imageIDs| < |Images|
    ensures !Gophers(st, id, n).panicked
    ensures Gophers(st, id, n).state.counter == n
    ensures Gophers(st, id, n).state.imageIDs == st.imageIDs
    decreases n
  {
    if n > 0 {
      ShortListPrefix(st, id, n - 1);
    }
  }

  /** The counter wraps modulo the image list, not the id list: when some
      uploads failed, the reply after the last id indexes past the end and
      panics. */
  lemma ShortListOverruns(st: State, id: string)
    requires st.counter == 0 && |st.imageIDs| < |Images|
    ensures !Gophers(st, id, |st.imageIDs|).panicked
    ensures Gophers(st, id, |st.imageIDs| + 1).panicked
  {
    ShortListPrefix(st, id, |st.imageIDs|);
  }

  // ---------------------------------------------------------------------
  // One event: routing, echoes, and which events send nothing.
  // ---------------------------------------------------------------------

  /** An event carrying both parts is routed as a message only. */
  lemma MessageWinsOverPostback(st: State, ev: Event, vendor: Vendor)
    requires ev.IsMessage()
    ensures OnEvent(st, ev, vendor) == OnEvent(st, ev.(postback := None), vendor)
  {
  }

  /** The `_GOPHER` postback runs sendGopher without asking for an owner. */
  lemma PostbackBypassesOwner(st: State, ev: Event, vendor: Vendor)
    requires st.me != "" && ev.sender != st.me && !ev.IsMessage()
    requires ev.IsPostback() && ev.postback.value.payload == GopherPayload
    ensures OnEvent(st, ev, vendor) == Gopher(st, ev.sender)
  {
  }

  /** Before initialisation a "gopher" message only gets the not-initialised
      text, but the `_GOPHER` postback indexes the empty id list and panics
      after sending the intro text. */
  lemma UninitializedGopher(st: State, sender: string, title: string, vendor: Vendor)
    requires st.me != "" && sender != st.me && st.owner == "" && st.imageIDs == []
    ensures
      var message := Event(sender, st.me, 0, Some(Message("", "gopher")), None);
      OnEvent(st, message, vendor) == Step(Post(st, sender, Text(NotInitializedText)), false)
    ensures
      var postback := Event(sender, st.me, 0, None, Some(Postback(title, GopherPayload)));
      OnEvent(st, postback, vendor) == Step(Post(st, sender, Text(GopherIntroText)), true)
  {
    assert |"gopher"| != |InitKeyword|;
  }

  /** The events that send nothing: those not dispatched (the bot does not
      know itself yet, or the event is its own echo, or it carries neither
      part), an "_INIT" message once there is an owner, and a postback
      whose payload is not `_GOPHER`. */
  predicate Silent(st: State, ev: Event) {
    var st1 := LearnMe(st, ev);
    || !FromOther(st1, ev)
    || (ev.IsMessage() && ev.message.value.text == InitKeyword && st.owner != "")
    || (!ev.IsMessage() && (!ev.IsPostback() || ev.postback.value.payload != GopherPayload))
  }

  /** An event sends nothing exactly when it is silent, and then at most
      the bot's own id is learnt. */
  lemma SilentIff(st: State, ev: Event, vendor: Vendor)
    ensures OnEvent(st, ev, vendor).state.outbox == st.outbox <==> Silent(st, ev)
    ensures Silent(st, ev) ==> OnEvent(st, ev, vendor) == Step(LearnMe(st, ev), false)
  {
    var st1 := LearnMe(st, ev);
    if ev.IsMessage() && FromOther(st1, ev) {
      var text := ev.message.value.text;
      if text == InitKeyword && st1.owner == "" {
        InitMessage(st1, ev.sender, vendor);
        assert |OnEvent(st, ev, vendor).state.outbox| == |st1.outbox| + |Images| + 1;
      }
    }
  }

  /** An echo of the bot's own send is never dispatched, whatever it carries. */
  lemma EchoSuppressed(st: State, ev: Event, vendor: Vendor)
    requires ev.sender == LearnMe(st, ev).me
    ensures OnEvent(st, ev, vendor) == Step(LearnMe(st, ev), false)
  {
  }

  /** Once the bot knows itself, a run of its own echoes changes nothing. */
  lemma {:induction false} EchoesNeverSend(st: State, evs: seq<Event>, vendor: Vendor)
    requires st.me != ""
    requires forall i | 0 <= i < |evs| :: evs[i].sender == st.me
    ensures OnEvents(st, evs, vendor) == Step(st, false)
    decreases |evs|
  {
    if evs != [] {
      EchoesNeverSend(st, evs[..|evs| - 1], vendor);
    }
  }

  // ---------------------------------------------------------------------
  // What an event may change: set-once ids, growing lists, the counter.
  // ---------------------------------------------------------------------

  /** One event learns `me` only while it is empty, changes `owner` only from
      empty to the sender, only appends to the ids and the outbox, and keeps
      the counter inside the image list. */
  lemma OnEventFrame(st: State, ev: Event, vendor: Vendor)
    ensures
      var r := OnEvent(st, ev, vendor).state;
      && r.me == (if st.me == "" then ev.recipient else st.me)
      && (r.owner == st.owner || (st.owner == "" && r.owner == ev.sender))
      && st.imageIDs <= r.imageIDs
      && st.outbox <= r.outbox
      && (Valid(st) ==> Valid(r))
  {
    var st1 := LearnMe(st, ev);
    if ev.IsMessage() && FromOther(st1, ev) {
      InitMessage(st1, ev.sender, vendor);
    }
  }

  /** The same for a run of events: `me` and `owner` are set at most once,
      from some event of the run, and never change afterwards. */
  lemma {:induction false} OnEventsFrame(st: State, evs: seq<Event>, vendor: Vendor)
    ensures
      var r := OnEvents(st, evs, vendor).state;
      && (st.me != "" ==> r.me == st.me)
      && (r.me == st.me || exists i | 0 <= i < |evs| :: r.me == evs[i].recipient)
      && (st.owner != "" ==> r.owner == st.owner)
      && (r.owner == st.owner || exists i | 0 <= i < |evs| :: r.owner == evs[i].sender)
      && st.imageIDs <= r.imageIDs
      && st.outbox <= r.outbox
      && (Valid(st) ==> Valid(r))
    decreases |evs|
  {
    if evs != [] {
      var init := evs[..|evs| - 1];
      var last := evs[|evs| - 1];
      OnEventsFrame(st, init, vendor);
      var before := OnEvents(st, init, vendor);
      if !before.panicked {
        OnEventFrame(before.state, last, vendor);
        var r := OnEvents(st, evs, vendor).state;
        if r.me != st.me && r.me != before.state.me {
          assert r.me == evs[|evs| - 1].recipient;
        } else if r.me != st.me {
          var i :| 0 <= i < |init| && before.state.me == init[i].recipient;
          assert r.me == evs[i].recipient;
        }
        if r.owner != st.owner && r.owner != before.state.owner {
          assert r.owner == evs[|evs| - 1].sender;
        } else if r.owner != st.owner {
          var i :| 0 <= i < |init| && before.state.owner == init[i].sender;
          assert r.owner == evs[i].sender;
        }
      } else {
        var r := before.state;
        if r.me != st.me {
          var i :| 0 <= i < |init| && r.me == init[i].recipient;
          assert r.me == evs[i].recipient;
        }
        if r.owner != st.owner {
          var i :| 0 <= i < |init| && r.owner == init[i].sender;
          assert r.owner == evs[i].sender;
        }
      }
    }
  }

  // ---------------------------------------------------------------------
  // A whole callback.
  // ---------------------------------------------------------------------

  /** A callback for anything but "page" is refused and changes nothing; a
      "page" callback is acknowledged unless a handler panicked, and keeps
      the set-once and append-only rules over all its events. */
  lemma OnCallbackRules(st: State, cb: Callback, vendor: Vendor)
    ensures cb.objectType != "page" ==> OnCallback(st, cb, vendor) == Outcome(st, CallbackError)
    ensures cb.objectType == "page" ==>
      var o := OnCallback(st, cb, vendor);
      && (o.response == EventReceived || o.response == Dropped)
      && (st.me != "" ==> o.state.me == st.me)
      && (st.owner != "" ==> o.state.owner == st.owner)
      && st.imageIDs <= o.state.imageIDs
      && st.outbox <= o.state.outbox
      && (Valid(st) ==> Valid(o.state))
  {
    if cb.objectType == "page" {
      OnEventsFrame(st, AllEvents(cb.entries), vendor);
    }
  }

  /** Every rotation index has an id. */
  predicate Ready(st: State) {
    Valid(st) && |st.imageIDs| >= |Images|
  }

  lemma {:induction false} ReadyNeverPanics(st: State, evs: seq<Event>, vendor: Vendor)
    requires Ready(st)
    ensures !OnEvents(st, evs, vendor).panicked && Ready(OnEvents(st, evs, vendor).state)
    decreases |evs|
  {
    if evs != [] {
      ReadyNeverPanics(st, evs[..|evs| - 1], vendor);
      var before := OnEvents(st, evs[..|evs| - 1], vendor).state;
      OnEventFrame(before, evs[|evs| - 1], vendor);
    }
  }

  /** Once every image has an id, every "page" callback is acknowledged with
      200 "EVENT_RECEIVED", whatever the platform answers to the sends. */
  lemma ReadyCallbackAcknowledged(st: State, cb: Callback, vendor: Vendor)
    requires Ready(st) && cb.objectType == "page"
    ensures OnCallback(st, cb, vendor).response == EventReceived
    ensures Ready(OnCallback(st, cb, vendor).state)
  {
    ReadyNeverPanics(st, AllEvents(cb.entries), vendor);
  }

  /** No ids before there is an owner, and at most one per image. */
  predicate IdsBounded(st: State) {
    Valid(st) && |st.imageIDs| <= |Images| && (st.owner == "" ==> st.imageIDs == [])
  }

  lemma OnEventBounded(st: State, ev: Event, vendor: Vendor)
    requires IdsBounded(st) && ev.sender != ""
    ensures IdsBounded(OnEvent(st, ev, vendor).state)
  {
    OnEventFrame(st, ev, vendor);
    var st1 := LearnMe(st, ev);
    if ev.IsMessage() && FromOther(st1, ev) {
      InitMessage(st1, ev.sender, vendor);
      UploadedCount(vendor, |st1.outbox|, |Images|);
    }
  }

  /** While every sender id is non-empty, the bot holds at most four ids. */
  lemma {:induction false} OnEventsBounded(st: State, evs: seq<Event>, vendor: Vendor)
    requires IdsBounded(st)
    requires forall i | 0 <= i < |evs| :: evs[i].sender != ""
    ensures IdsBounded(OnEvents(st, evs, vendor).state)
    decreases |evs|
  {
    if evs != [] {
      OnEventsBounded(st, evs[..|evs| - 1], vendor);
      var before := OnEvents(st, evs[..|evs| - 1], vendor);
      if !before.panicked {
        OnEventBounded(before.state, evs[|evs| - 1], vendor);
      }
    }
  }

  /** An "_INIT" from an event with an empty sender id leaves the owner
      empty, so the next one uploads the images again: with every upload
      answered, two such messages leave eight ids. */
  lemma EmptySenderReinitializes(me: string, vendor: Vendor)
    requires me != ""
    requires forall k: nat :: vendor(k).Success?
    ensures
      var init := Event("", me, 0, Some(Message("", InitKeyword)), None);
      var r := OnEvents(Initial, [init, init], vendor);
      && !r.panicked
      && r.state.owner == ""
      && |r.state.imageIDs| == 2 * |Images|
  {
    var init := Event("", me, 0, Some(Message("", InitKeyword)), None);
    var st1 := Initial.(me := me);
    assert LearnMe(Initial, init) == st1 && FromOther(st1, init);
    InitMessage(st1, "", vendor);
    UploadedCount(vendor, 0, |Images|);
    var s1 := OnMessage(st1, "", InitKeyword, vendor);
    assert OnEvent(Initial, init, vendor) == s1;
    assert !s1.panicked && s1.state.owner == "" && |s1.state.imageIDs| == |Images|;
    assert [init, init][..1] == [init];
    assert [init][..0] == [];
    assert OnEvents(Initial, [init], vendor) == s1;
    var st2 := s1.state;
    assert LearnMe(st2, init) == st2 && FromOther(st2, init);
    InitMessage(st2, "", vendor);
    UploadedCount(vendor, |st2.outbox|, |Images|);
    var s2 := OnMessage(st2, "", InitKeyword, vendor);
    assert OnEvent(st2, init, vendor) == s2;
    assert OnEvents(Initial, [init, init], vendor) == s2;
  }
}
