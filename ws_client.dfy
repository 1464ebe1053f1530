/**
 * The websocket client of the current bot (clients/bybit_ws.py): its list of subscriptions, the
 * requests it sends on subscribe and unsubscribe, the routing decision for each received frame,
 * and the running/connected flags. The socket itself, the receive loop and the reconnection
 * delay are not part of this model.
 */
module WsClient {
  import opened Wrappers
  import opened Text

  /** The `topics` argument: one topic string or a list of them. */
  datatype Topics = One(topic: string) | Many(topics: seq<string>)

  /** `if isinstance(topics, str): topics = [topics]`. */
  function TopicList(t: Topics): seq<string>
  {
    match t
    case One(topic) => [topic]
    case Many(topics) => topics
  }

  /** The set of a list's elements, as `set(...)` builds it. */
  function SetOf(s: seq<string>): set<string>
  {
    set x | x in s
  }

  /** Handler objects are known by their identity. */
  type HandlerId = nat

  /** One entry of `subscriptions`: the topic list and the handler it was given. */
  datatype Subscription = Subscription(topics: seq<string>, handler: HandlerId)

  /** A JSON request frame `{'op': op, 'args': args}`. */
  datatype Request = Request(op: string, args: seq<string>)

  /**
   * A received message: text that is not JSON, or a JSON object of which the router looks at the
   * presence of `success` and at the `topic` and `data` members.
   */
  datatype Frame<D> = NotJson(text: string) | Json(hasSuccess: bool, topic: Option<string>, data: Option<D>)

  /** `handle_price_update(data, symbol)` scheduled on one handler. */
  datatype Dispatch<D> = Dispatch(handler: HandlerId, data: D, symbol: string)

  /** The subscriptions left once every entry whose topic set equals `topics` is dropped. */
  function Without(subs: seq<Subscription>, topics: set<string>): (r: seq<Subscription>)
    ensures |r| <= |subs|
    ensures forall s :: s in r <==> s in subs && SetOf(s.topics) != topics
  {
    if |subs| == 0 then []
    else
      var rest := Without(subs[1..], topics);
      assert forall s :: s in subs <==> s == subs[0] || s in subs[1..];
      if SetOf(subs[0].topics) != topics then [subs[0]] + rest else rest
  }

  /** Dropping distributes over concatenation. */
  lemma {:induction false} WithoutAppend(a: seq<Subscription>, b: seq<Subscription>, topics: set<string>)
    ensures Without(a + b, topics) == Without(a, topics) + Without(b, topics)
    decreases |a|
  {
    if |a| > 0 {
      assert (a + b)[0] == a[0] && (a + b)[1..] == a[1..] + b;
      WithoutAppend(a[1..], b, topics);
    } else {
      assert a + b == b;
    }
  }

  /**
   * Unsubscribing a list undoes subscribing it: the entry just added leaves again, with every
   * older entry of the same topic set, and the rest stay in their order.
   */
  lemma UnsubscribeUndoesSubscribe(subs: seq<Subscription>, topics: seq<string>, h: HandlerId)
    ensures Without(subs + [Subscription(topics, h)], SetOf(topics)) == Without(subs, SetOf(topics))
  {
    WithoutAppend(subs, [Subscription(topics, h)], SetOf(topics));
    assert [Subscription(topics, h)][1..] == [];
  }

  /** The handlers of the subscriptions listing `topic`, in subscription order, repeats included. */
  function Matching(subs: seq<Subscription>, topic: string): (r: seq<HandlerId>)
    ensures |r| <= |subs|
    ensures forall i :: 0 <= i < |subs| && topic in subs[i].topics ==> subs[i].handler in r
    ensures forall h :: h in r ==> exists i :: 0 <= i < |subs| && topic in subs[i].topics && subs[i].handler == h
  {
    if |subs| == 0 then []
    else
      var rest := Matching(subs[1..], topic);
      assert forall i :: 1 <= i < |subs| ==> subs[i] == subs[1..][i - 1];
      if topic in subs[0].topics then [subs[0].handler] + rest else rest
  }

  /**
   * The decision taken for one received message: text that is not JSON and frames carrying
   * `success` are skipped; a frame with a topic and data goes to the handler of every subscription
   * listing that topic, with the symbol taken after the topic's last '.'.
   */
  function Route<D>(frame: Frame<D>, subs: seq<Subscription>): (r: seq<Dispatch<D>>)
    ensures frame.NotJson? || frame.hasSuccess || frame.topic.None? || frame.data.None? ==> r == []
    ensures |r| <= |subs|
    ensures forall d :: d in r ==>
      frame.Json? && frame.topic.Some? && frame.data.Some?
      && d.data == frame.data.value && d.symbol == LastSegment(frame.topic.value, '.')
      && exists i :: 0 <= i < |subs| && frame.topic.value in subs[i].topics && subs[i].handler == d.handler
  {
    if frame.NotJson? || frame.hasSuccess || frame.topic.None? || frame.data.None? then []
    else
      var hs := Matching(subs, frame.topic.value);
      var symbol := LastSegment(frame.topic.value, '.');
      var r := seq(|hs|, i requires 0 <= i < |hs| => Dispatch(hs[i], frame.data.value, symbol));
      assert forall d :: d in r ==> d.handler in hs by {
        forall d | d in r ensures d.handler in hs {
          var i :| 0 <= i < |r| && r[i] == d;
        }
      }
      r
  }

  /** Every subscription listing the topic gets the frame. */
  lemma RouteReachesEverySubscriber<D>(topic: string, data: D, subs: seq<Subscription>, i: int)
    requires 0 <= i < |subs| && topic in subs[i].topics
    ensures Dispatch(subs[i].handler, data, LastSegment(topic, '.')) in Route(Json(false, Some(topic), Some(data)), subs)
  {
    var hs := Matching(subs, topic);
    assert subs[i].handler in hs;
    var j :| 0 <= j < |hs| && hs[j] == subs[i].handler;
    var r := Route(Json(false, Some(topic), Some(data)), subs);
    assert r[j] == Dispatch(subs[i].handler, data, LastSegment(topic, '.'));
  }

  /** The dispatches of a run of messages, each routed on its own. */
  function RouteAll<D>(frames: seq<Frame<D>>, subs: seq<Subscription>): (r: seq<Dispatch<D>>)
  {
    if |frames| == 0 then [] else Route(frames[0], subs) + RouteAll(frames[1..], subs)
  }

  /** Routing a run is routing its parts. */
  lemma {:induction false} RouteAllAppend<D>(a: seq<Frame<D>>, b: seq<Frame<D>>, subs: seq<Subscription>)
    ensures RouteAll(a + b, subs) == RouteAll(a, subs) + RouteAll(b, subs)
    decreases |a|
  {
    if |a| > 0 {
      assert (a + b)[0] == a[0] && (a + b)[1..] == a[1..] + b;
      RouteAllAppend(a[1..], b, subs);
    } else {
      assert a + b == b;
    }
  }

  /** Invalid JSON is skipped and the messages after it are routed as if it had not come. */
  lemma InvalidJsonSkipped<D>(before: seq<Frame<D>>, text: string, after: seq<Frame<D>>, subs: seq<Subscription>)
    ensures RouteAll(before + [NotJson(text)] + after, subs) == RouteAll(before, subs) + RouteAll(after, subs)
  {
    var skipped: seq<Frame<D>> := [NotJson(text)];
    assert RouteAll(skipped, subs) == [] by {
      assert skipped[1..] == [];
      assert Route(skipped[0], subs) == [];
    }
    RouteAllAppend(before, skipped, subs);
    RouteAllAppend(before + skipped, after, subs);
    assert RouteAll(before + skipped, subs) == RouteAll(before, subs);
  }

  /** `BybitWsClient` of clients/bybit_ws.py. */
  class Client {
    var subscriptions: seq<Subscription>
    /** `websocket is not None`. */
    var connected: bool
    var running: bool

    /** `__init__`: no subscriptions, no socket, running. */
    constructor()
      ensures subscriptions == [] && !connected && running
    {
      subscriptions := [];
      connected := false;
      running := true;
    }

    /** `connect`: marks the client running; the processing task itself is not modelled. */
    method Connect()
      modifies this`running
      ensures running
    {
      running := true;
    }

    /** The processing loop has opened a socket (`self.websocket = websocket`). */
    method Opened()
      modifies this`connected
      ensures connected
    {
      connected := true;
    }

    /**
     * `subscribe`: the topic list is always appended with its handler, even when the same list is
     * already there; the subscribe request is sent only over an open socket.
     */
    method Subscribe(topics: Topics, handler: HandlerId) returns (sent: Option<Request>)
      modifies this`subscriptions
      ensures subscriptions == old(subscriptions) + [Subscription(TopicList(topics), handler)]
      ensures |subscriptions| == |old(subscriptions)| + 1
      ensures sent == (if connected then Some(Request("subscribe", TopicList(topics))) else None)
    {
      var list := TopicList(topics);
      subscriptions := subscriptions + [Subscription(list, handler)];
      sent := if connected then Some(Request("subscribe", list)) else None;
    }

    /**
     * `unsubscribe`: exactly the entries whose topic set equals the given one are dropped; entries
     * that only overlap it stay. The unsubscribe request is sent only over an open socket.
     */
    method Unsubscribe(topics: Topics) returns (sent: Option<Request>)
      modifies this`subscriptions
      ensures subscriptions == Without(old(subscriptions), SetOf(TopicList(topics)))
      ensures sent == (if connected then Some(Request("unsubscribe", TopicList(topics))) else None)
    {
      var list := TopicList(topics);
      subscriptions := Without(subscriptions, SetOf(list));
      sent := if connected then Some(Request("unsubscribe", list)) else None;
    }

    /** `disconnect`: the client stops running and forgets its socket. */
    method Disconnect()
      modifies this`running, this`connected
      ensures !running && !connected
    {
      running := false;
      connected := false;
    }
  }
}
