/**
 * The two pumps of a WebSocket proxy. The upward pump takes messages from the client and, on the
 * exec and console endpoints, sends their content to LXD; the downward pump copies LXD's frames
 * to the client. Each await may be followed by anything, so a pump is a machine over events.
 */
module Relay {
  import opened Wrappers

  type Bytes = seq<bv8>

  datatype Frame = TextFrame(text: string) | BinaryFrame(data: Bytes)

  datatype Message = Disconnect | Receive(text: Option<string>, bytes: Option<Bytes>)

  /** `msg.get("text") or msg.get("bytes")`, when that is not empty. */
  function Content(message: Message): Option<Frame> {
    match message
    case Disconnect => None
    case Receive(text, bytes) =>
      if text.Some? && text.value != "" then Some(TextFrame(text.value))
      else if bytes.Some? && bytes.value != [] then Some(BinaryFrame(bytes.value))
      else None
  }

  /** The non-empty content of the messages received, in order. */
  function Contents(messages: seq<Message>): seq<Frame> {
    if messages == [] then [] else
    Contents(messages[..|messages| - 1])
    + match Content(messages[|messages| - 1]) case Some(frame) => [frame] case None => []
  }

  /** Where a pump is: awaiting input, holding a frame to pass on, or over, by return or by exception. */
  datatype Pump = Waiting | Holding(frame: Frame) | Ended(dropped: Option<Frame>) | Raised(dropped: Option<Frame>)

  /** The frame a pump took in and has not passed on. */
  function InHand(pump: Pump): seq<Frame> {
    match pump
    case Waiting => []
    case Holding(frame) => [frame]
    case Ended(dropped) => if dropped.Some? then [dropped.value] else []
    case Raised(dropped) => if dropped.Some? then [dropped.value] else []
  }

  datatype UpEvent = Received(message: Message) | ReceiveStops | ReceiveRaises | Sent | SendRaises

  datatype Up = Up(pump: Pump, received: seq<Message>, sent: seq<Frame>)

  /** `client_to_lxd`; with `forwards` false, as on the events endpoint, content is discarded. */
  function UpStep(forwards: bool, u: Up, e: UpEvent): Up {
    match u.pump
    case Waiting =>
      (match e
       case Received(message) =>
         var content := Content(message);
         var pump := if message.Disconnect? then Ended(None)
                     else if forwards && content.Some? then Holding(content.value) else Waiting;
         Up(pump, u.received + [message], u.sent)
       case ReceiveStops => u.(pump := Ended(None))
       case ReceiveRaises => u.(pump := Raised(None))
       case _ => u)
    case Holding(frame) =>
      (match e
       case Sent => Up(Waiting, u.received, u.sent + [frame])
       case SendRaises => u.(pump := Raised(Some(frame)))
       case _ => u)
    case _ => u
  }

  function RunUp(forwards: bool, es: seq<UpEvent>): Up {
    if es == [] then Up(Waiting, [], [])
    else UpStep(forwards, RunUp(forwards, es[..|es| - 1]), es[|es| - 1])
  }

  datatype DownEvent = Arrived(frame: Frame) | StreamEnds | Delivered | DeliveryRaises

  datatype Down = Down(pump: Pump, arrived: seq<Frame>, delivered: seq<Frame>)

  /** `lxd_to_client`: every exception is caught, so the pump only ever returns. */
  function DownStep(d: Down, e: DownEvent): Down {
    match d.pump
    case Waiting =>
      (match e
       case Arrived(frame) => Down(Holding(frame), d.arrived + [frame], d.delivered)
       case StreamEnds => d.(pump := Ended(None))
       case _ => d)
    case Holding(frame) =>
      (match e
       case Delivered => Down(Waiting, d.arrived, d.delivered + [frame])
       case DeliveryRaises => d.(pump := Ended(Some(frame)))
       case _ => d)
    case _ => d
  }

  function RunDown(es: seq<DownEvent>): Down {
    if es == [] then Down(Waiting, [], []) else DownStep(RunDown(es[..|es| - 1]), es[|es| - 1])
  }

  /** What the upward pump keeps: nothing is reordered, invented, or lost but the frame in hand. */
  ghost predicate UpConserves(forwards: bool, u: Up) {
    if forwards then Contents(u.received) == u.sent + InHand(u.pump)
    else u.sent == [] && InHand(u.pump) == []
  }

  ghost predicate DownConserves(d: Down) {
    d.arrived == d.delivered + InHand(d.pump) && !d.pump.Raised?
  }

  lemma UpStepConserves(forwards: bool, u: Up, e: UpEvent)
    requires UpConserves(forwards, u)
    ensures UpConserves(forwards, UpStep(forwards, u, e))
  {
    var u' := UpStep(forwards, u, e);
    if u.pump.Waiting? && e.Received? {
      assert u'.received[..|u'.received| - 1] == u.received;
    } else if u.pump.Holding? && e.Sent? {
      assert u.sent + [u.pump.frame] + [] == u.sent + [u.pump.frame];
    }
  }

  lemma DownStepConserves(d: Down, e: DownEvent)
    requires DownConserves(d)
    ensures DownConserves(DownStep(d, e))
  {
  }

  /** The message has a text or bytes that are not empty. */
  predicate Carries(message: Message) {
    && message.Receive?
    && ((message.text != None && message.text != Some("")) || (message.bytes != None && message.bytes != Some([])))
  }

  /** The frame is the message's text when that is not empty, and else its bytes, of their own kind. */
  predicate CarriedBy(frame: Frame, message: Message) {
    && message.Receive?
    && if message.text != None && message.text != Some("") then frame == TextFrame(message.text.value)
       else message.bytes.Some? && frame == BinaryFrame(message.bytes.value)
  }

  /** The frames are those carried by the messages at these positions, which are all that carry one, in order. */
  ghost predicate CarriedAt(frames: seq<Frame>, messages: seq<Message>, at: seq<nat>) {
    && |at| == |frames|
    && (forall j, k :: 0 <= j < k < |at| ==> at[j] < at[k])
    && (forall k :: 0 <= k < |at| ==>
                      at[k] < |messages| && Carries(messages[at[k]]) && CarriedBy(frames[k], messages[at[k]]))
    && (forall i :: 0 <= i < |messages| && Carries(messages[i]) ==> i in at)
  }

  lemma ContentIsCarried(message: Message)
    ensures Content(message).Some? <==> Carries(message)
    ensures Content(message).Some? ==> CarriedBy(Content(message).value, message)
  {
  }

  lemma OneMoreCarried(frames: seq<Frame>, messages: seq<Message>, at: seq<nat>, message: Message)
    requires CarriedAt(frames, messages, at)
    ensures Carries(message) ==> forall frame :: CarriedBy(frame, message) ==>
                                   CarriedAt(frames + [frame], messages + [message], at + [|messages|])
    ensures !Carries(message) ==> CarriedAt(frames, messages + [message], at)
  {
    forall i | 0 <= i < |messages| && Carries(messages[i])
      ensures i in at && i in at + [|messages|]
    {
    }
    assert (at + [|messages|])[|at|] == |messages|;
  }

  lemma {:induction false} ContentsAreCarried(messages: seq<Message>) returns (at: seq<nat>)
    ensures CarriedAt(Contents(messages), messages, at)
  {
    at := [];
    if messages != [] {
      var front, last := messages[..|messages| - 1], messages[|messages| - 1];
      at := ContentsAreCarried(front);
      ContentIsCarried(last);
      OneMoreCarried(Contents(front), front, at, last);
      assert front + [last] == messages && Contents(front) + [] == Contents(front);
      if Carries(last) {
        at := at + [|front|];
      }
    }
  }

  /** The loop of `client_to_lxd`, driven by what its awaits return. */
  method ClientToLxd(forwards: bool, es: seq<UpEvent>) returns (u: Up)
    ensures u == RunUp(forwards, es) && UpConserves(forwards, u)
  {
    var received: seq<Message>, sent: seq<Frame>, pump := [], [], Waiting;
    var i := 0;
    while i < |es|
      invariant 0 <= i <= |es|
      invariant Up(pump, received, sent) == RunUp(forwards, es[..i])
      invariant UpConserves(forwards, Up(pump, received, sent))
    {
      ghost var before := Up(pump, received, sent);
      var e := es[i];
      if pump.Waiting? {
        if e.Received? {
          received := received + [e.message];
          if e.message.Disconnect? {
            pump := Ended(None);
          } else if forwards && Content(e.message).Some? {
            pump := Holding(Content(e.message).value);
          }
        } else if e.ReceiveStops? {
          pump := Ended(None);
        } else if e.ReceiveRaises? {
          pump := Raised(None);
        }
      } else if pump.Holding? {
        if e.Sent? {
          sent := sent + [pump.frame];
          pump := Waiting;
        } else if e.SendRaises? {
          pump := Raised(Some(pump.frame));
        }
      }
      UpStepConserves(forwards, before, e);
      assert es[..i + 1][..i] == es[..i];
      i := i + 1;
    }
    u := Up(pump, received, sent);
    assert es[..i] == es;
  }

  /** The loop of `lxd_to_client`. */
  method LxdToClient(es: seq<DownEvent>) returns (d: Down)
    ensures d == RunDown(es) && DownConserves(d)
  {
    var arrived: seq<Frame>, delivered: seq<Frame>, pump := [], [], Waiting;
    var i := 0;
    while i < |es|
      invariant 0 <= i <= |es|
      invariant Down(pump, arrived, delivered) == RunDown(es[..i])
      invariant DownConserves(Down(pump, arrived, delivered))
    {
      ghost var before := Down(pump, arrived, delivered);
      var e := es[i];
      if pump.Waiting? {
        if e.Arrived? {
          arrived := arrived + [e.frame];
          pump := Holding(e.frame);
        } else if e.StreamEnds? {
          pump := Ended(None);
        }
      } else if pump.Holding? {
        if e.Delivered? {
          delivered := delivered + [pump.frame];
          pump := Waiting;
        } else if e.DeliveryRaises? {
          pump := Ended(Some(pump.frame));
        }
      }
      DownStepConserves(before, e);
      assert es[..i + 1][..i] == es[..i];
      i := i + 1;
    }
    d := Down(pump, arrived, delivered);
    assert es[..i] == es;
  }
}
