/**
 * The bot as the program runs it: the process-wide globals become the fields
 * of one object, every outbound API call is appended to `outbox`, and the
 * platform's answer to a call comes from `vendor`.
 */
module Server {
  import opened Messenger
  import opened Keywords
  import opened Dispatch
  import DispatchProofs

  class Bot {
    var counter: nat
    var owner: string
    var imageIDs: seq<string>
    var me: string
    var outbox: seq<Send>

    /** The fields as a value of the model. */
    function Model(): State
      reads this
    {
      State(counter, owner, imageIDs, me, outbox)
    }

    /** A freshly started process: every global at its zero value. */
    constructor ()
      ensures Model() == Initial
    {
      counter, owner, imageIDs, me, outbox := 0, "", [], "", [];
    }

    /** SendMessage: one call of the platform's send API. */
    method SendMessage(id: string, kind: MessageKind, vendor: Vendor) returns (r: SendResult)
      modifies this
      ensures outbox == old(outbox) + [Send(id, kind)]
      ensures counter == old(counter) && owner == old(owner)
      ensures imageIDs == old(imageIDs) && me == old(me)
      ensures r == vendor(|old(outbox)|)
    {
      r := vendor(|outbox|);
      outbox := outbox + [Send(id, kind)];
    }

    /** sendGopher; `panicked` reports the out-of-range index `imageIDs[counter]`. */
    method SendGopher(id: string, vendor: Vendor) returns (panicked: bool)
      modifies this
      ensures Step(Model(), panicked) == Gopher(old(Model()), id)
      ensures panicked <==> old(counter) >= |old(imageIDs)|
      ensures outbox == old(outbox) + [Send(id, Text(GopherIntroText))]
        + (if panicked then [] else [Send(id, GopherTemplate(old(imageIDs)[old(counter)]))])
      ensures counter == if panicked then old(counter) else (old(counter) + 1) % |Images|
      ensures owner == old(owner) && imageIDs == old(imageIDs) && me == old(me)
    {
      var _ := SendMessage(id, Text(GopherIntroText), vendor);
      if counter >= |imageIDs| {
        return true;
      }
      var _ := SendMessage(id, GopherTemplate(imageIDs[counter]), vendor);
      counter := (counter + 1) % |Images|;
      return false;
    }

    /** ProcessMessage, for an event that carries a message. */
    method ProcessMessage(event: Event, vendor: Vendor) returns (panicked: bool)
      requires event.IsMessage()
      modifies this
      ensures Step(Model(), panicked) == OnMessage(old(Model()), event.sender, event.message.value.text, vendor)
    {
      var text := event.message.value.text;
      panicked := false;
      if text == InitKeyword {
        if owner != "" {
          return;
        }
        owner := event.sender;
        ghost var start := Model();
        for i := 0 to |Images|
          invariant Model() == UploadAll(start, Images[..i], vendor)
        {
          assert Images[..i + 1][..i] == Images[..i];
          ghost var before := Model();
          var r := SendMessage(owner, Image(Images[i]), vendor);
          if r.Failure? {
            assert Model() == Upload(before, Images[i], vendor);
            continue;
          }
          imageIDs := imageIDs + [r.attachmentId];
          assert Model() == Upload(before, Images[i], vendor);
        }
        assert Images[..|Images|] == Images;
        assert Model() == UploadAll(start, Images, vendor);
        var _ := SendMessage(event.sender, Text(Summary(imageIDs)), vendor);
        assert Classify(text, old(owner)) == InitReply;
        return;
      }
      var isGo := Contains(text, GoKeywords);
      if isGo && owner != "" {
        assert Classify(text, owner) == GopherReply;
        panicked := SendGopher(event.sender, vendor);
        return;
      }
      var isPython := Contains(text, PythonKeywords);
      if isPython && owner != "" {
        assert Classify(text, owner) == PythonReply;
        var _ := SendMessage(event.sender, Text(PythonText), vendor);
        return;
      }
      var isJava := Contains(text, JavaKeywords);
      if isJava && owner != "" {
        assert Classify(text, owner) == JavaReply;
        var _ := SendMessage(event.sender, Text(JavaText), vendor);
        return;
      }
      assert Classify(text, owner) == NotInitializedReply;
      var _ := SendMessage(event.sender, Text(NotInitializedText), vendor);
    }

    /** CallbackHandler on an already decoded callback. */
    method CallbackHandler(callback: Callback, vendor: Vendor) returns (response: Response)
      modifies this
      ensures Outcome(Model(), response) == OnCallback(old(Model()), callback, vendor)
    {
      if callback.objectType != "page" {
        return CallbackError;
      }
      ghost var start := Model();
      var entries := callback.entries;
      for i := 0 to |entries|
        invariant OnEvents(start, AllEvents(entries[..i]), vendor) == Step(Model(), false)
      {
        var events := entries[i].events;
        ghost var done := AllEvents(entries[..i]);
        assert done + events[..0] == done;
        for j := 0 to |events|
          invariant OnEvents(start, done + events[..j], vendor) == Step(Model(), false)
        {
          ghost var before := Model();
          var event := events[j];
          if me == "" {
            me := event.recipient;
          }
          var panicked := false;
          if event.IsMessage() && me != "" && event.sender != me {
            panicked := ProcessMessage(event, vendor);
          } else if event.IsPostback() && me != "" && event.sender != me {
            if event.postback.value.payload == GopherPayload {
              panicked := SendGopher(event.sender, vendor);
            }
          }
          assert Step(Model(), panicked) == OnEvent(before, event, vendor);
          DispatchProofs.OnEventsSnoc(start, done, events, j, vendor);
          if panicked {
            DispatchProofs.PanicAbandonsRest(start, entries, i, j, vendor);
            return Dropped;
          }
        }
        assert events[..|events|] == events;
        DispatchProofs.AllEventsSnoc(entries, i);
      }
      assert entries[..|entries|] == entries;
      return EventReceived;
    }
  }
}
