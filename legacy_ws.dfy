/**
 * The websocket client of the first bot (bybit_ws.py): a table from topic to handler kept in
 * insertion order, request rejection, the regrouping of topics by handler on reconnection, the
 * bounded retry counter and the routing of a received payload. The socket, the authentication
 * exchange and the stream task are not part of this model.
 */
module LegacyWs {
  import opened Wrappers
  import WsClient

  type HandlerId = WsClient.HandlerId

  /** `Domain`: public without credentials, private with both an API key and a secret. */
  datatype Domain = Public | Private

  /** The domain chosen by `__init__`: private only when both keys are given and non-empty. */
  function DomainOf(apiKey: Option<string>, secretKey: Option<string>): (d: Domain)
    ensures d == Private <==> apiKey.Some? && apiKey.value != "" && secretKey.Some? && secretKey.value != ""
  {
    if apiKey.Some? && apiKey.value != "" && secretKey.Some? && secretKey.value != "" then Private else Public
  }

  /** The server address of a domain. */
  function UrlOf(d: Domain): (url: string)
    ensures url == "wss://stream.bybit.com/realtime_" + (if d == Private then "private" else "public")
  {
    "wss://stream.bybit.com/realtime_" + (match d case Public => "public" case Private => "private")
  }

  /** The two requests `_prepare_sub` sends. */
  datatype Action = Sub | Unsub

  /** The `op` member of a request. */
  function Op(a: Action): string
  {
    match a
    case Sub => "subscribe"
    case Unsub => "unsubscribe"
  }

  /** `action.capitalize()`. */
  function Title(a: Action): string
  {
    match a
    case Sub => "Subscribe"
    case Unsub => "Unsubscribe"
  }

  /** The server's answer to a request: its `success` and `ret_msg` members, each possibly absent. */
  datatype Ack = Ack(success: Option<bool>, retMsg: Option<string>)

  /**
   * `_prepare_sub` after the answer: only an explicit `success: false` raises ValueError, with the
   * server's message; an answer without `success` passes.
   */
  function Rejection(a: Action, ack: Ack): (e: Option<string>)
    ensures e.Some? <==> ack.success == Some(false)
    ensures e.Some? ==> e.value == Title(a) + " failed: " + (if ack.retMsg.Some? then ack.retMsg.value else "None")
  {
    if ack.success == Some(false) then
      Some(Title(a) + " failed: " + (if ack.retMsg.Some? then ack.retMsg.value else "None"))
    else None
  }

  /** The keys in insertion order after assigning each topic in turn (existing keys keep their place). */
  function Inserted(keys: seq<string>, topics: seq<string>): (r: seq<string>)
    ensures forall k :: k in r <==> k in keys || k in topics
    ensures |keys| <= |r| && r[..|keys|] == keys
    decreases |topics|
  {
    if |topics| == 0 then keys
    else
      var t := topics[|topics| - 1];
      var before := Inserted(keys, topics[..|topics| - 1]);
      assert forall k :: k in topics <==> k in topics[..|topics| - 1] || k == t;
      if t in before then before else before + [t]
  }

  /** No key is listed twice. */
  predicate Distinct(keys: seq<string>)
  {
    forall i, j :: 0 <= i < j < |keys| ==> keys[i] != keys[j]
  }

  /** Insertion keeps the key list free of repeats. */
  lemma {:induction false} InsertedDistinct(keys: seq<string>, topics: seq<string>)
    requires Distinct(keys)
    ensures Distinct(Inserted(keys, topics))
    decreases |topics|
  {
    if |topics| > 0 {
      InsertedDistinct(keys, topics[..|topics| - 1]);
    }
  }

  /** The table after `subscriptions[topic] = handler` for every topic. */
  function Assigned(table: map<string, HandlerId>, topics: seq<string>, h: HandlerId): (r: map<string, HandlerId>)
    ensures r.Keys == table.Keys + set t | t in topics
    ensures forall t :: t in topics ==> r[t] == h
    ensures forall k :: k in table && k !in topics ==> r[k] == table[k]
  {
    map k | k in table.Keys + (set t | t in topics) :: if k in topics then h else table[k]
  }

  /** Assigning one more topic extends the table by that topic. */
  lemma AssignedStep(table: map<string, HandlerId>, topics: seq<string>, i: int, h: HandlerId)
    requires 0 <= i < |topics|
    ensures Assigned(table, topics[..i + 1], h) == Assigned(table, topics[..i], h)[topics[i] := h]
  {
    assert forall t :: t in topics[..i + 1] <==> t in topics[..i] || t == topics[i];
  }

  /** Inserting one more topic appends it unless it is already listed. */
  lemma InsertedStep(keys: seq<string>, topics: seq<string>, i: int)
    requires 0 <= i < |topics|
    ensures var before := Inserted(keys, topics[..i]);
      Inserted(keys, topics[..i + 1]) == if topics[i] in before then before else before + [topics[i]]
  {
    assert topics[..i + 1][..i] == topics[..i];
  }

  /**
   * The loop of `subscribe`: each topic in turn is mapped to the handler, joining the key order
   * when it is new.
   */
  method AssignAll(keys: seq<string>, table: map<string, HandlerId>, topics: seq<string>, h: HandlerId)
    returns (keys': seq<string>, table': map<string, HandlerId>)
    ensures keys' == Inserted(keys, topics) && table' == Assigned(table, topics, h)
  {
    keys', table' := keys, table;
    var i := 0;
    while i < |topics|
      invariant 0 <= i <= |topics|
      invariant table' == Assigned(table, topics[..i], h)
      invariant keys' == Inserted(keys, topics[..i])
    {
      AssignedStep(table, topics, i, h);
      InsertedStep(keys, topics, i);
      keys' := if topics[i] in keys' then keys' else keys' + [topics[i]];
      table' := table'[topics[i] := h];
      i := i + 1;
    }
    assert topics[..|topics|] == topics;
  }

  /** The keys left once the given topics are deleted, in their order. */
  function Removed(keys: seq<string>, topics: seq<string>): (r: seq<string>)
    ensures forall k :: k in r <==> k in keys && k !in topics
    ensures |r| <= |keys|
  {
    if |keys| == 0 then []
    else
      var rest := Removed(keys[1..], topics);
      assert forall k :: k in keys <==> k == keys[0] || k in keys[1..];
      if keys[0] in topics then rest else [keys[0]] + rest
  }

  /** Deleting keeps the key list free of repeats. */
  lemma {:induction false} RemovedDistinct(keys: seq<string>, topics: seq<string>)
    requires Distinct(keys)
    ensures Distinct(Removed(keys, topics))
    decreases |keys|
  {
    if |keys| > 0 {
      RemovedDistinct(keys[1..], topics);
    }
  }

  /** `_stream`: the handler of a payload's topic, when the topic is registered. */
  function Route(table: map<string, HandlerId>, topic: Option<string>): (h: Option<HandlerId>)
    ensures h.Some? <==> topic.Some? && topic.value in table
    ensures h.Some? ==> h.value == table[topic.value]
  {
    if topic.Some? && topic.value in table then Some(table[topic.value]) else None
  }

  /** After a subscription its topics reach the new handler, and no other topic changes route. */
  lemma RouteAfterSubscribe(table: map<string, HandlerId>, topics: seq<string>, h: HandlerId, t: string)
    ensures t in topics ==> Route(Assigned(table, topics, h), Some(t)) == Some(h)
    ensures t !in topics ==> Route(Assigned(table, topics, h), Some(t)) == Route(table, Some(t))
  {
  }

  /** After an unsubscription its topics reach no handler, and no other topic changes route. */
  lemma RouteAfterUnsubscribe(table: map<string, HandlerId>, topics: seq<string>, t: string)
    ensures t in topics ==> Route(table - (set x | x in topics), Some(t)) == None
    ensures t !in topics ==> Route(table - (set x | x in topics), Some(t)) == Route(table, Some(t))
  {
  }

  /** A group of `_resubscribe`: topics to send in one request, with their handler. */
  datatype Group = Group(topics: seq<string>, handler: HandlerId)

  /** Every key has a handler. */
  predicate Covered(keys: seq<string>, table: map<string, HandlerId>)
  {
    forall k :: k in keys ==> k in table
  }

  /**
   * One step of the grouping: key `k` with handler `h` joins the last group when `joins`, and opens
   * a group of its own otherwise.
   */
  function Extend(prev: seq<Group>, k: string, h: HandlerId, joins: bool): (r: seq<Group>)
    requires joins ==> |prev| > 0
    ensures |r| > 0
  {
    if joins then
      var g := prev[|prev| - 1];
      prev[..|prev| - 1] + [Group(g.topics + [k], g.handler)]
    else prev + [Group([k], h)]
  }

  /** The maximal runs of consecutive keys sharing one handler, in key order. */
  function Runs(keys: seq<string>, table: map<string, HandlerId>): (r: seq<Group>)
    requires Covered(keys, table)
    ensures |keys| > 0 <==> |r| > 0
    decreases |keys|
  {
    if |keys| == 0 then []
    else
      var k := keys[|keys| - 1];
      Extend(Runs(keys[..|keys| - 1], table), k, table[k], |keys| > 1 && table[keys[|keys| - 2]] == table[k])
  }

  /** The topics of a list of groups, in order. */
  function Flatten(groups: seq<Group>): (r: seq<string>)
  {
    if |groups| == 0 then [] else Flatten(groups[..|groups| - 1]) + groups[|groups| - 1].topics
  }

  /** A non-empty list is its front followed by its last element. */
  lemma LastSplit<T>(s: seq<T>)
    requires |s| > 0
    ensures s == s[..|s| - 1] + [s[|s| - 1]]
  {
  }

  /** Flattening one more group appends its topics. */
  lemma FlattenSnoc(a: seq<Group>, g: Group)
    ensures Flatten(a + [g]) == Flatten(a) + g.topics
  {
    assert (a + [g])[..|a|] == a;
  }

  /** A step of the grouping adds its key at the end of the flattened topics. */
  lemma FlattenExtend(prev: seq<Group>, k: string, h: HandlerId, joins: bool)
    requires joins ==> |prev| > 0
    ensures Flatten(Extend(prev, k, h, joins)) == Flatten(prev) + [k]
  {
    if joins {
      var g := prev[|prev| - 1];
      var front := prev[..|prev| - 1];
      LastSplit(prev);
      FlattenSnoc(front, g);
      var g' := Group(g.topics + [k], g.handler);
      FlattenSnoc(front, g');
      calc {
        Flatten(front + [g']);
        Flatten(front) + (g.topics + [k]);
        (Flatten(front) + g.topics) + [k];
        Flatten(prev) + [k];
      }
    } else {
      FlattenSnoc(prev, Group([k], h));
    }
  }

  /** Each group holds keys of its own handler only. */
  predicate Uniform(g: Group, table: map<string, HandlerId>)
  {
    |g.topics| > 0 && forall t :: t in g.topics ==> t in table && table[t] == g.handler
  }

  /** The shape the grouping keeps: uniform groups, neighbours with different handlers. */
  predicate Shaped(r: seq<Group>, table: map<string, HandlerId>)
  {
    && (forall i :: 0 <= i < |r| ==> Uniform(r[i], table))
    && (forall i :: 0 < i < |r| ==> r[i - 1].handler != r[i].handler)
  }

  /** A step of the grouping keeps the shape and leaves `h` as the last handler. */
  lemma ShapedExtend(prev: seq<Group>, table: map<string, HandlerId>, k: string, joins: bool)
    requires k in table && Shaped(prev, table)
    requires joins ==> |prev| > 0 && prev[|prev| - 1].handler == table[k]
    requires !joins && |prev| > 0 ==> prev[|prev| - 1].handler != table[k]
    ensures var r := Extend(prev, k, table[k], joins);
      Shaped(r, table) && r[|r| - 1].handler == table[k]
  {
    var r := Extend(prev, k, table[k], joins);
    if joins {
      var g := prev[|prev| - 1];
      assert Uniform(g, table);
      assert forall i :: 0 <= i < |r| - 1 ==> r[i] == prev[i];
      assert Uniform(r[|r| - 1], table);
    } else {
      assert forall i :: 0 <= i < |r| - 1 ==> r[i] == prev[i];
    }
  }

  /** The runs of the first `i + 1` keys, from the runs of the first `i`. */
  lemma RunsStep(keys: seq<string>, table: map<string, HandlerId>, i: int)
    requires Covered(keys, table) && 1 <= i < |keys|
    ensures Covered(keys[..i], table) && Covered(keys[..i + 1], table)
    ensures Runs(keys[..i + 1], table) ==
      Extend(Runs(keys[..i], table), keys[i], table[keys[i]], table[keys[i - 1]] == table[keys[i]])
  {
    var ks := keys[..i + 1];
    assert ks[..|ks| - 1] == keys[..i];
    assert ks[|ks| - 1] == keys[i] && ks[|ks| - 2] == keys[i - 1];
    assert forall k :: k in keys[..i] ==> k in keys;
    assert forall k :: k in ks ==> k in keys;
  }

  /** The runs of a single key. */
  lemma RunsFirst(keys: seq<string>, table: map<string, HandlerId>)
    requires Covered(keys, table) && |keys| > 0
    ensures Covered(keys[..1], table) && Runs(keys[..1], table) == [Group([keys[0]], table[keys[0]])]
  {
    assert keys[..1][..0] == [];
  }

  /** The keys but the last are covered when all are. */
  lemma CoveredFront(keys: seq<string>, table: map<string, HandlerId>)
    requires Covered(keys, table) && |keys| > 0
    ensures Covered(keys[..|keys| - 1], table)
  {
    assert forall k :: k in keys[..|keys| - 1] ==> k in keys;
  }

  /** Grouping one more key adds it at the end of the flattened runs. */
  lemma FlattenRunsStep(keys: seq<string>, table: map<string, HandlerId>)
    requires Covered(keys, table) && |keys| > 0 && Covered(keys[..|keys| - 1], table)
    ensures Flatten(Runs(keys, table)) == Flatten(Runs(keys[..|keys| - 1], table)) + [keys[|keys| - 1]]
  {
    var n := |keys|;
    var k := keys[n - 1];
    var joins := n > 1 && table[keys[n - 2]] == table[k];
    var prev := Runs(keys[..n - 1], table);
    assert Runs(keys, table) == Extend(prev, k, table[k], joins);
    FlattenExtend(prev, k, table[k], joins);
  }

  /** The runs cover every key once, in order. */
  lemma {:induction false} RunsFlatten(keys: seq<string>, table: map<string, HandlerId>)
    requires Covered(keys, table)
    ensures Flatten(Runs(keys, table)) == keys
    decreases |keys|
  {
    if |keys| > 0 {
      CoveredFront(keys, table);
      RunsFlatten(keys[..|keys| - 1], table);
      FlattenRunsStep(keys, table);
      LastSplit(keys);
    }
  }

  /**
   * Each run is non-empty and single-handler, neighbouring runs have different handlers, and the
   * last run has the last key's handler.
   */
  lemma {:induction false} RunsShape(keys: seq<string>, table: map<string, HandlerId>)
    requires Covered(keys, table)
    ensures var r := Runs(keys, table);
      Shaped(r, table) && (|keys| > 0 ==> r[|r| - 1].handler == table[keys[|keys| - 1]])
    decreases |keys|
  {
    var n := |keys|;
    if n > 0 {
      var init := keys[..n - 1];
      CoveredFront(keys, table);
      var k := keys[n - 1];
      var joins := n > 1 && table[keys[n - 2]] == table[k];
      var prev := Runs(init, table);
      assert Shaped(prev, table) && (n > 1 ==> prev[|prev| - 1].handler == table[keys[n - 2]]) by {
        RunsShape(init, table);
        assert n > 1 ==> init[n - 2] == keys[n - 2];
      }
      assert Runs(keys, table) == Extend(prev, k, table[k], joins);
      ShapedExtend(prev, table, k, joins);
    }
  }

  /**
   * `_resubscribe` as written: the loop builds the runs, but the run in progress when the loop
   * ends is never added to the list, so the last run is lost.
   */
  method ResubscribeGroupsAsWritten(keys: seq<string>, table: map<string, HandlerId>) returns (resubList: seq<Group>)
    requires |keys| > 0 && Covered(keys, table)
    ensures var r := Runs(keys, table); resubList == r[..|r| - 1]
  {
    resubList := [];
    var resubs := Group([], 0);
    var i := 0;
    var prevKey := keys[i];
    while i < |keys|
      invariant 0 <= i <= |keys|
      invariant i == 0 ==> resubList == [] && resubs.topics == [] && prevKey == keys[0]
      invariant i > 0 ==> resubList + [resubs] == Runs(keys[..i], table) && prevKey == keys[i - 1]
    {
      if i == 0 {
        resubs := Group(resubs.topics + [prevKey], table[prevKey]);
        i := i + 1;
        RunsFirst(keys, table);
        assert resubs.topics == [keys[0]];
        continue;
      }
      RunsStep(keys, table, i);
      ghost var prev := resubList + [resubs];
      assert prev[..|prev| - 1] == resubList && prev[|prev| - 1] == resubs;
      assert Runs(keys[..i + 1], table) == Extend(prev, keys[i], table[keys[i]], table[prevKey] == table[keys[i]]);
      var curKey := keys[i];
      if table[prevKey] == table[curKey] {
        resubs := Group(resubs.topics + [curKey], resubs.handler);
        prevKey := curKey;
        i := i + 1;
        continue;
      }
      resubList := resubList + [resubs];
      resubs := Group([curKey], table[curKey]);
      prevKey := curKey;
      i := i + 1;
    }
    assert keys[..|keys|] == keys;
    var r := Runs(keys, table);
    assert r == resubList + [resubs];
    assert r[..|r| - 1] == resubList;
  }

  /**
   * `_resubscribe` as evidently intended: the same loop, with the run in progress added when the
   * loop ends, so every key is resubscribed with its own handler.
   */
  method ResubscribeGroups(keys: seq<string>, table: map<string, HandlerId>) returns (resubList: seq<Group>)
    requires |keys| > 0 && Covered(keys, table)
    ensures resubList == Runs(keys, table)
  {
    resubList := [];
    var resubs := Group([], 0);
    var i := 0;
    var prevKey := keys[i];
    while i < |keys|
      invariant 0 <= i <= |keys|
      invariant i == 0 ==> resubList == [] && resubs.topics == [] && prevKey == keys[0]
      invariant i > 0 ==> resubList + [resubs] == Runs(keys[..i], table) && prevKey == keys[i - 1]
    {
      if i == 0 {
        resubs := Group(resubs.topics + [prevKey], table[prevKey]);
        i := i + 1;
        RunsFirst(keys, table);
        assert resubs.topics == [keys[0]];
        continue;
      }
      RunsStep(keys, table, i);
      ghost var prev := resubList + [resubs];
      assert prev[..|prev| - 1] == resubList && prev[|prev| - 1] == resubs;
      assert Runs(keys[..i + 1], table) == Extend(prev, keys[i], table[keys[i]], table[prevKey] == table[keys[i]]);
      var curKey := keys[i];
      if table[prevKey] == table[curKey] {
        resubs := Group(resubs.topics + [curKey], resubs.handler);
        prevKey := curKey;
        i := i + 1;
        continue;
      }
      resubList := resubList + [resubs];
      resubs := Group([curKey], table[curKey]);
      prevKey := curKey;
      i := i + 1;
    }
    resubList := resubList + [resubs];
    assert keys[..|keys|] == keys;
  }

  /**
   * As written, the resubscribed topics are the keys without their last run: at least the last key
   * is lost on every reconnection.
   */
  lemma AsWrittenLosesLastRun(keys: seq<string>, table: map<string, HandlerId>)
    requires |keys| > 0 && Covered(keys, table)
    ensures var r := Runs(keys, table);
      Flatten(r[..|r| - 1]) + r[|r| - 1].topics == keys && |Flatten(r[..|r| - 1])| < |keys|
  {
    RunsFlatten(keys, table);
    RunsShape(keys, table);
    var r := Runs(keys, table);
    assert r == r[..|r| - 1] + [r[|r| - 1]];
    FlattenSnoc(r[..|r| - 1], r[|r| - 1]);
    assert Uniform(r[|r| - 1], table);
  }

  /** With one handler for two topics, as written nothing at all is resubscribed. */
  lemma AsWrittenSingleHandler(t1: string, t2: string, h: HandlerId)
    ensures var table := map[t1 := h, t2 := h];
      var r := Runs([t1, t2], table);
      r == [Group([t1, t2], h)] && r[..|r| - 1] == []
  {
    var table := map[t1 := h, t2 := h];
    var keys := [t1, t2];
    RunsFirst(keys, table);
    RunsStep(keys, table, 1);
    assert keys[..2] == keys;
    assert [t1] + [t2] == keys;
  }

  /** What one connection attempt gives. */
  datatype Attempt = Connects | TimesOut | BadUri

  /** How `connect` ends. */
  datatype Outcome = Connected | InvalidUri | GaveUp

  /** `BybitWsClient` of bybit_ws.py. */
  class Client {
    const domain: Domain
    const url: string
    /** The topics of `subscriptions`, in insertion order. */
    var keys: seq<string>
    /** `subscriptions`: topic to handler. */
    var table: map<string, HandlerId>
    var retries: nat
    /** The socket is open. */
    var open: bool

    /** The key list and the table describe one ordered dictionary; retries never pass 10. */
    predicate Valid()
      reads this
    {
      && Distinct(keys) && (set k | k in keys) == table.Keys
      && retries <= 10
    }

    /** `__init__`: the domain from the credentials, its address, no retries yet. */
    constructor(apiKey: Option<string>, secretKey: Option<string>)
      ensures domain == DomainOf(apiKey, secretKey) && url == UrlOf(domain)
      ensures keys == [] && table == map[] && retries == 0 && !open
      ensures Valid()
    {
      domain := DomainOf(apiKey, secretKey);
      url := UrlOf(DomainOf(apiKey, secretKey));
      keys := [];
      table := map[];
      retries := 0;
      open := false;
    }

    /**
     * `subscribe`: the request is sent first; a rejection raises before the table changes.
     * Otherwise every topic is mapped to the handler, overwriting earlier mappings; new topics
     * join the key order at its end.
     */
    method Subscribe(topics: WsClient.Topics, handler: HandlerId, ack: Ack)
      returns (sent: WsClient.Request, r: Result<()>)
      requires Valid()
      modifies this`keys, this`table
      ensures Valid()
      ensures sent == WsClient.Request(Op(Sub), WsClient.TopicList(topics))
      ensures r.Err? <==> Rejection(Sub, ack).Some?
      ensures r.Err? ==> r.error == Rejection(Sub, ack).value && keys == old(keys) && table == old(table)
      ensures r.Ok? ==>
        && table == Assigned(old(table), WsClient.TopicList(topics), handler)
        && keys == Inserted(old(keys), WsClient.TopicList(topics))
    {
      var list := WsClient.TopicList(topics);
      sent := WsClient.Request(Op(Sub), list);
      var rejected := Rejection(Sub, ack);
      if rejected.Some? {
        return sent, Err(rejected.value);
      }
      InsertedDistinct(keys, list);
      keys, table := AssignAll(keys, table, list, handler);
      r := Ok(());
    }

    /**
     * `unsubscribe`: a rejection raises before the table changes; otherwise the given topics that
     * are present are deleted and every other topic keeps its handler and place.
     */
    method Unsubscribe(topics: WsClient.Topics, ack: Ack) returns (sent: WsClient.Request, r: Result<()>)
      requires Valid()
      modifies this`keys, this`table
      ensures Valid()
      ensures sent == WsClient.Request(Op(Unsub), WsClient.TopicList(topics))
      ensures r.Err? <==> Rejection(Unsub, ack).Some?
      ensures r.Err? ==> r.error == Rejection(Unsub, ack).value && keys == old(keys) && table == old(table)
      ensures r.Ok? ==>
        && table == old(table) - (set t | t in WsClient.TopicList(topics))
        && keys == Removed(old(keys), WsClient.TopicList(topics))
    {
      var list := WsClient.TopicList(topics);
      sent := WsClient.Request(Op(Unsub), list);
      var rejected := Rejection(Unsub, ack);
      if rejected.Some? {
        return sent, Err(rejected.value);
      }
      RemovedDistinct(keys, list);
      keys := Removed(keys, list);
      table := table - (set t | t in list);
      r := Ok(());
    }

    /** `disconnect`: the socket is closed. */
    method Disconnect()
      modifies this`open
      ensures !open
    {
      open := false;
    }

    /**
     * `connect`, with its retry recursion unrolled: attempt `n` of this call gives `attempt(n)`.
     * A success resets the retry counter and, when topics are registered, clears the table and
     * hands back the groups to subscribe again; an invalid address stops; a timeout retries while
     * fewer than 10 retries were made, and otherwise disconnects.
     */
    method Connect(attempt: nat -> Attempt) returns (outcome: Outcome, tries: nat, resubs: seq<Group>)
      requires Valid()
      modifies this`retries, this`open, this`keys, this`table
      ensures Valid()
      ensures 1 <= tries <= 11 - old(retries)
      ensures forall n :: 0 <= n < tries - 1 ==> attempt(n) == TimesOut
      ensures outcome == Connected <==> attempt(tries - 1) == Connects
      ensures outcome == InvalidUri <==> attempt(tries - 1) == BadUri
      ensures outcome == GaveUp ==> retries == 10 && tries == 11 - old(retries) && !open
      ensures outcome == Connected ==> retries == 0 && open && keys == [] && table == map[]
      ensures outcome == Connected && |old(keys)| > 0 ==> resubs == Runs(old(keys), old(table))
      ensures outcome != Connected ==> resubs == [] && keys == old(keys) && table == old(table)
      ensures outcome == InvalidUri ==> retries == old(retries) + tries - 1
    {
      tries := 0;
      resubs := [];
      while true
        invariant Valid() && tries <= 10 - old(retries)
        invariant retries == old(retries) + tries
        invariant forall n :: 0 <= n < tries ==> attempt(n) == TimesOut
        invariant keys == old(keys) && table == old(table)
        decreases 10 - retries
      {
        var a := attempt(tries);
        tries := tries + 1;
        if a == Connects {
          resubs := Reopen();
          return Connected, tries, resubs;
        } else if a == BadUri {
          return InvalidUri, tries, [];
        } else if retries < 10 {
          retries := retries + 1;
        } else {
          Disconnect();
          return GaveUp, tries, [];
        }
      }
    }

    /**
     * The successful branch of `connect`: the retry counter is reset and, when topics are
     * registered, the table is cleared and the groups to subscribe again are handed back.
     */
    method Reopen() returns (resubs: seq<Group>)
      requires Valid()
      modifies this`retries, this`open, this`keys, this`table
      ensures Valid() && retries == 0 && open && keys == [] && table == map[]
      ensures |old(keys)| > 0 ==> resubs == Runs(old(keys), old(table))
      ensures |old(keys)| == 0 ==> resubs == []
    {
      open := true;
      retries := 0;
      resubs := [];
      if |keys| > 0 {
        assert Covered(keys, table);
        resubs := ResubscribeGroups(keys, table);
        keys := [];
        table := map[];
      }
    }
  }
}
