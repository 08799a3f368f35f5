/** The display controller: the window's root layer, the text layer, the last received
    message and the loaded image, changed by one handler per event. */
module FaceMessage {
  import opened Wrappers
  import opened CStrings
  import opened Inbox
  import opened Images

  /** The two layers the handlers attach to the window's root layer. */
  datatype LayerId = TextLayer | ImageLayer

  /** The events the app has handlers for. */
  datatype Event =
    | InboxReceived(pairs: seq<Pair>)
    | InboxDropped
    | OutboxFailed
    | OutboxSent
    | SelectClick
    | UpClick
    | DownClick

  /** The controller's state as a value: the children of the root layer (front-most
      last), the text of the text layer, the global `message` and the resource last
      loaded into `s_image` (None stands for NULL). */
  datatype Screen = Screen(
    children: seq<LayerId>,
    text: Option<CString>,
    message: Option<CString>,
    image: Option<Resource>)

  /** The state right after the window has loaded. */
  function Loaded(): Screen
  {
    Screen([TextLayer], Some("Welcome"), None, None)
  }

  /** What each handler does to the state. */
  function Next(s: Screen, e: Event): Screen
  {
    match e
    case InboxReceived(pairs) =>
      var d := Decode(pairs, s.message);
      s.(children := [ImageLayer], message := d.message, image := Some(ChooseImage(d.sentiment)))
    case InboxDropped => s.(text := Some("Dropped"))
    case OutboxFailed => s.(text := Some("Failed"))
    case OutboxSent => s.(text := Some("Sent"))
    case SelectClick => s.(text := Some("Select"))
    case UpClick => s.(children := [TextLayer], text := s.message)
    case DownClick => s.(text := Some("Down"))
  }

  /** The state after the events, handled one at a time, in order. */
  function Run(s: Screen, events: seq<Event>): Screen
  {
    if events == [] then s
    else Next(Run(s, events[..|events| - 1]), events[|events| - 1])
  }

  /** All tuples received by the inbox handler over the events, in order. */
  function Received(events: seq<Event>): seq<Pair>
  {
    if events == [] then []
    else
      var last := events[|events| - 1];
      Received(events[..|events| - 1]) + (if last.InboxReceived? then last.pairs else [])
  }

  /** Exactly one layer is attached to the root layer. */
  predicate OneChild(s: Screen)
  {
    s.children == [TextLayer] || s.children == [ImageLayer]
  }

  class Controller {
    var children: seq<LayerId>
    var text: Option<CString>
    var message: Option<CString>
    var image: Option<Resource>

    function State(): Screen
      reads this
    {
      Screen(children, text, message, image)
    }

    /** The globals start out NULL; loading the window gives the text layer the text
        "Welcome" and attaches it. */
    constructor Load()
      ensures children == [TextLayer] && text == Some("Welcome")
      ensures message == None && image == None
      ensures State() == Loaded()
    {
      children, text, message, image := [], None, None, None;
      new;
      SetText(Some("Welcome"));
      AddChild(TextLayer);
    }

    /** Detaches every child of the root layer. */
    method RemoveChildLayers()
      modifies this`children
      ensures children == []
    {
      children := [];
    }

    /** Attaches `layer` in front of the root layer's other children. */
    method AddChild(layer: LayerId)
      modifies this`children
      ensures children == old(children) + [layer]
    {
      children := children + [layer];
    }

    /** Sets the text of the text layer, attached or not. */
    method SetText(t: Option<CString>)
      modifies this`text
      ensures text == t
    {
      text := t;
    }

    /** A dictionary arrived: decode it into `message` and a sentiment, then show the
        image chosen from the sentiment alone. */
    method OnInboxReceived(pairs: seq<Pair>)
      modifies this
      ensures children == [ImageLayer]
      ensures message == Decode(pairs, old(message)).message
      ensures image == Some(ChooseImage(Decode(pairs, old(message)).sentiment))
      ensures text == old(text)
      ensures State() == Next(old(State()), InboxReceived(pairs))
    {
      var d := ReadPairs(pairs, message);
      message := d.message;
      var resource := ChooseImage(d.sentiment);
      RemoveChildLayers();
      AddChild(ImageLayer);
      image := Some(resource);
    }

    method OnInboxDropped()
      modifies this
      ensures text == Some("Dropped")
      ensures children == old(children) && message == old(message) && image == old(image)
      ensures State() == Next(old(State()), InboxDropped)
    {
      SetText(Some("Dropped"));
    }

    method OnOutboxFailed()
      modifies this
      ensures text == Some("Failed")
      ensures children == old(children) && message == old(message) && image == old(image)
      ensures State() == Next(old(State()), OutboxFailed)
    {
      SetText(Some("Failed"));
    }

    method OnOutboxSent()
      modifies this
      ensures text == Some("Sent")
      ensures children == old(children) && message == old(message) && image == old(image)
      ensures State() == Next(old(State()), OutboxSent)
    {
      SetText(Some("Sent"));
    }

    method OnSelectClick()
      modifies this
      ensures text == Some("Select")
      ensures children == old(children) && message == old(message) && image == old(image)
      ensures State() == Next(old(State()), SelectClick)
    {
      SetText(Some("Select"));
    }

    /** Replaces every child of the root layer with the text layer, showing `message`. */
    method OnUpClick()
      modifies this
      ensures children == [TextLayer]
      ensures text == old(message)
      ensures message == old(message) && image == old(image)
      ensures State() == Next(old(State()), UpClick)
    {
      RemoveChildLayers();
      SetText(message);
      AddChild(TextLayer);
    }

    method OnDownClick()
      modifies this
      ensures text == Some("Down")
      ensures children == old(children) && message == old(message) && image == old(image)
      ensures State() == Next(old(State()), DownClick)
    {
      SetText(Some("Down"));
    }
  }

  /** Every handler leaves exactly one layer attached if there was one before. */
  lemma NextKeepsOneChild(s: Screen, e: Event)
    requires OneChild(s)
    ensures OneChild(Next(s, e))
  {
  }

  /** From the loaded window on, whatever events arrive, exactly one layer is attached. */
  lemma {:induction false} OneChildAlways(events: seq<Event>)
    ensures OneChild(Run(Loaded(), events))
  {
    if events != [] {
      var n := |events| - 1;
      OneChildAlways(events[..n]);
      NextKeepsOneChild(Run(Loaded(), events[..n]), events[n]);
    }
  }

  /** The neutral image is never loaded: `s_image` is NULL, the frown or the smiley. */
  lemma {:induction false} NeutralNeverLoaded(events: seq<Event>)
    ensures Run(Loaded(), events).image != Some(Neutral)
  {
    if events != [] {
      NeutralNeverLoaded(events[..|events| - 1]);
    }
  }

  /** `message` is what decoding every received tuple in one go would leave. */
  lemma {:induction false} MessageAfterRun(events: seq<Event>)
    ensures Run(Loaded(), events).message == Decode(Received(events), None).message
  {
    if events != [] {
      var n := |events| - 1;
      var init := events[..n];
      MessageAfterRun(init);
      var pairs := if events[n].InboxReceived? then events[n].pairs else [];
      DecodeAppendMessage(Received(init), pairs, None);
      if !events[n].InboxReceived? {
        assert Received(init) + pairs == Received(init);
      }
    }
  }

  /** Pressing Up shows the value of the last key-1 tuple ever received, and NULL text when
      none has arrived yet. */
  lemma UpShowsLastKeyOne(events: seq<Event>)
    ensures NoneWith(Received(events), {1}) ==>
      Run(Loaded(), events + [UpClick]).text == None
    ensures forall j :: IsLast(Received(events), {1}, j) ==>
      Run(Loaded(), events + [UpClick]).text == Some(Received(events)[j].value)
  {
    assert (events + [UpClick])[..|events|] == events;
    MessageAfterRun(events);
    MessageIsLastKeyOne(Received(events), None);
  }

  /** An empty dictionary still replaces the screen with the frown image, leaving
      `message` alone. */
  lemma EmptyInboxShowsFrown(s: Screen)
    ensures Next(s, InboxReceived([])) == s.(children := [ImageLayer], image := Some(Frown))
  {
  }

  /** The status literal each text-only handler sets. */
  function StatusText(e: Event): CString
  {
    match e
    case InboxDropped => "Dropped"
    case OutboxFailed => "Failed"
    case OutboxSent => "Sent"
    case SelectClick => "Select"
    case DownClick => "Down"
    case _ => ""
  }

  /** While the image layer is the one attached, the text-only handlers still replace the
      text with their literal, and the image layer stays the only child. */
  lemma TextChangesWhileDetached(s: Screen, e: Event)
    requires s.children == [ImageLayer]
    requires e in {InboxDropped, OutboxFailed, OutboxSent, SelectClick, DownClick}
    ensures Next(s, e).children == [ImageLayer]
    ensures Next(s, e).text == Some(StatusText(e))
    ensures StatusText(e) in {"Dropped", "Failed", "Sent", "Select", "Down"}
  {
  }

  /** `{1: "hello", 2: "sad"}` loads the smiley and stores "hello", which Up then shows. */
  lemma HelloSadShowsSmiley()
    ensures Run(Loaded(), [InboxReceived([Pair(1, "hello"), Pair(2, "sad")])]).image == Some(Smiley)
    ensures Run(Loaded(), [InboxReceived([Pair(1, "hello"), Pair(2, "sad")])]).message == Some("hello")
    ensures Run(Loaded(), [InboxReceived([Pair(1, "hello"), Pair(2, "sad")]), UpClick]).text == Some("hello")
  {
  }

  /** `{1: "ping"}` alone makes "ping" the sentiment too, so the frown is loaded. */
  lemma PingShowsFrown()
    ensures Run(Loaded(), [InboxReceived([Pair(1, "ping")])]).image == Some(Frown)
    ensures Run(Loaded(), [InboxReceived([Pair(1, "ping")])]).message == Some("ping")
  {
  }
}
