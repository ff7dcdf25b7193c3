/**
 * The backend's end of the connection (backend/backend.go): the dispatch loop with its table of
 * responder channels, and the choice of a handler for a path.
 */
module BackendEndpoint {
  import opened Prelude
  import opened Channels
  import opened Envelope
  import Delegation

  /** What the URL of a Connect leads to. */
  datatype Route = BadUrl | NoHandler | Found

  datatype Responder = Responder(key: string, log: seq<Event<string>>)

  /** `chans` holds every responder channel ever made; `responses` is what goes back to the proxy. */
  datatype Endpoint = Endpoint(responders: map<string, nat>, chans: seq<Responder>, responses: seq<Message>)

  const Initial := Endpoint(map[], [], [])

  function Noted(e: Endpoint, h: nat, event: Event<string>): Endpoint {
    if h < |e.chans| then e.(chans := e.chans[h := e.chans[h].(log := e.chans[h].log + [event])]) else e
  }

  function Respond(e: Endpoint, key: string): Endpoint {
    e.(responses := e.responses + [Message(key, CLOSE, "")])
  }

  function CloseHandler(e: Endpoint, key: string): Endpoint {
    if key in e.responders then Noted(e, e.responders[key], Closed).(responders := e.responders - {key}) else e
  }

  function Dispatch(e: Endpoint, msg: Message, route: string -> Route): Endpoint {
    if msg.kind == CONNECT then
      match route(msg.body)
      case BadUrl => e
      case NoHandler => Respond(e, msg.key)
      case Found => e.(responders := e.responders[msg.key := |e.chans|], chans := e.chans + [Responder(msg.key, [])])
    else if msg.kind == BODY then
      if msg.key in e.responders then Noted(e, e.responders[msg.key], Sent(msg.body)) else Respond(e, msg.key)
    else if msg.kind == CLOSE then CloseHandler(e, msg.key)
    else Respond(CloseHandler(e, msg.key), msg.key)
  }

  /** A read error closes what the table holds; the loop then returns. */
  function CloseAll(e: Endpoint): Endpoint {
    e.(chans := seq(|e.chans|, h requires 0 <= h < |e.chans| =>
        if exists k :: k in e.responders && e.responders[k] == h then e.chans[h].(log := e.chans[h].log + [Closed])
          else e.chans[h]))
  }

  function DispatchAll(e: Endpoint, msgs: seq<Message>, route: string -> Route): Endpoint {
    if msgs == [] then e
    else Dispatch(DispatchAll(e, msgs[..|msgs| - 1], route), msgs[|msgs| - 1], route)
  }

  lemma DispatchAllSnoc(e: Endpoint, msgs: seq<Message>, msg: Message, route: string -> Route)
    ensures DispatchAll(e, msgs + [msg], route) == Dispatch(DispatchAll(e, msgs, route), msg, route)
  {
    assert (msgs + [msg])[..|msgs|] == msgs;
  }

  /** The table names open channels of its keys; with no key connected twice while live, it names all of them. */
  ghost predicate TableInv(e: Endpoint, all: bool) {
    && (forall k :: k in e.responders ==>
          e.responders[k] < |e.chans| && e.chans[e.responders[k]].key == k && Open(e.chans[e.responders[k]].log))
    && (forall h :: 0 <= h < |e.chans| ==> Safe(e.chans[h].log))
    && (all ==> forall h :: 0 <= h < |e.chans| && Open(e.chans[h].log) ==>
          e.chans[h].key in e.responders && e.responders[e.chans[h].key] == h)
  }

  /** The message is a Connect that reaches a handler and names a key that is in the table. */
  predicate Reuses(e: Endpoint, msg: Message, route: string -> Route) {
    msg.kind == CONNECT && route(msg.body) == Found && msg.key in e.responders
  }

  /** No Connect of the sequence overwrites a live entry of the table. */
  ghost predicate NoReuse(e: Endpoint, msgs: seq<Message>, route: string -> Route) {
    forall n :: 0 <= n < |msgs| ==> !ReusesAt(e, msgs, n, route)
  }

  predicate ReusesAt(e: Endpoint, msgs: seq<Message>, n: nat, route: string -> Route)
    requires n < |msgs|
  {
    Reuses(DispatchAll(e, msgs[..n], route), msgs[n], route)
  }

  lemma OpenLogGrows(log: seq<Event<string>>, e: Event<string>)
    requires Open(log) && Safe(log)
    ensures Safe(log + [e]) && (Open(log + [e]) <==> e.Sent?)
  {
    assert forall i :: 0 <= i < |log| ==> log[i] in log;
    assert (log + [e])[|log|] == e;
  }

  lemma DispatchKeepsTable(e: Endpoint, msg: Message, route: string -> Route, all: bool)
    requires TableInv(e, all)
    requires all ==> !Reuses(e, msg, route)
    ensures TableInv(Dispatch(e, msg, route), all)
  {
    if msg.key in e.responders {
      OpenLogGrows(e.chans[e.responders[msg.key]].log, Closed);
      OpenLogGrows(e.chans[e.responders[msg.key]].log, Sent(msg.body));
    }
  }

  lemma NoReuseBefore(msgs: seq<Message>, route: string -> Route)
    requires msgs != [] && NoReuse(Initial, msgs, route)
    ensures NoReuse(Initial, msgs[..|msgs| - 1], route)
    ensures !Reuses(DispatchAll(Initial, msgs[..|msgs| - 1], route), msgs[|msgs| - 1], route)
  {
    var before := msgs[..|msgs| - 1];
    forall n | 0 <= n < |before| ensures !ReusesAt(Initial, before, n, route) {
      assert before[..n] == msgs[..n];
      assert !ReusesAt(Initial, msgs, n, route);
    }
    assert !ReusesAt(Initial, msgs, |before|, route);
  }

  lemma {:induction false} DispatchAllKeepsTable(msgs: seq<Message>, route: string -> Route, all: bool)
    requires all ==> NoReuse(Initial, msgs, route)
    ensures TableInv(DispatchAll(Initial, msgs, route), all)
    decreases |msgs|
  {
    if msgs == [] {
    } else {
      if all {
        NoReuseBefore(msgs, route);
      }
      DispatchAllKeepsTable(msgs[..|msgs| - 1], route, all);
      DispatchKeepsTable(DispatchAll(Initial, msgs[..|msgs| - 1], route), msgs[|msgs| - 1], route, all);
    }
  }

  /** An open channel that the table does not name. */
  ghost predicate Stranded(e: Endpoint, h: nat) {
    h < |e.chans| && Open(e.chans[h].log) && forall k :: k in e.responders ==> e.responders[k] != h
  }

  lemma ReuseStrands(e: Endpoint, msg: Message, route: string -> Route)
    requires TableInv(e, false) && Reuses(e, msg, route)
    ensures Stranded(Dispatch(e, msg, route), e.responders[msg.key])
  {
  }

  lemma StrandedStays(e: Endpoint, msg: Message, route: string -> Route, h: nat)
    requires Stranded(e, h)
    ensures Stranded(Dispatch(e, msg, route), h)
  {
  }

  /** Once overwritten, a channel is open and out of the table for good. */
  lemma {:induction false} ReuseLeavesStranded(msgs: seq<Message>, route: string -> Route, n: nat) returns (h: nat)
    requires n < |msgs| && ReusesAt(Initial, msgs, n, route)
    ensures Stranded(DispatchAll(Initial, msgs, route), h)
    decreases |msgs|
  {
    var before := msgs[..|msgs| - 1];
    assert msgs[..n] == before[..n];
    if n == |before| {
      assert before[..n] == before;
      DispatchAllKeepsTable(before, route, false);
      h := DispatchAll(Initial, before, route).responders[msgs[n].key];
      ReuseStrands(DispatchAll(Initial, before, route), msgs[n], route);
    } else {
      h := ReuseLeavesStranded(before, route, n);
      StrandedStays(DispatchAll(Initial, before, route), msgs[|before|], route, h);
    }
  }

  /** A read error closes the channels the table names, each once, and leaves the stranded ones. */
  lemma CloseAllCloses(e: Endpoint, all: bool)
    requires TableInv(e, all)
    ensures forall h :: 0 <= h < |e.chans| ==> Safe(CloseAll(e).chans[h].log)
    ensures forall h :: 0 <= h < |e.chans| ==> (Open(CloseAll(e).chans[h].log) <==> Stranded(e, h))
  {
    forall h | 0 <= h < |e.chans|
      ensures Safe(CloseAll(e).chans[h].log) && (Open(CloseAll(e).chans[h].log) <==> Stranded(e, h))
    {
      if k :| k in e.responders && e.responders[k] == h {
        OpenLogGrows(e.chans[h].log, Closed);
      }
    }
  }

  ghost predicate AllClosed(e: Endpoint) {
    forall h :: 0 <= h < |e.chans| ==> !Open(e.chans[h].log)
  }

  /**
   * Whatever the proxy sends, no responder channel is closed twice or written after it was closed,
   * also when a read error then closes the rest; and the read error leaves every channel closed if
   * and only if no Connect that reached a handler named a key live at that moment.
   */
  lemma RespondersNeverMisused(msgs: seq<Message>, route: string -> Route)
    ensures var e := DispatchAll(Initial, msgs, route);
      && (forall h :: 0 <= h < |e.chans| ==> Safe(e.chans[h].log) && Safe(CloseAll(e).chans[h].log))
      && (AllClosed(CloseAll(e)) <==> NoReuse(Initial, msgs, route))
  {
    var e := DispatchAll(Initial, msgs, route);
    DispatchAllKeepsTable(msgs, route, false);
    CloseAllCloses(e, false);
    if NoReuse(Initial, msgs, route) {
      DispatchAllKeepsTable(msgs, route, true);
      assert forall h :: 0 <= h < |e.chans| ==> !Stranded(e, h);
    } else {
      var n :| 0 <= n < |msgs| && ReusesAt(Initial, msgs, n, route);
      var h := ReuseLeavesStranded(msgs, route, n);
      assert Open(CloseAll(e).chans[h].log);
    }
  }

  /**
   * After a malformed frame the loop returns and leaves every channel the table names open: all
   * channels are closed then if and only if the table is empty and no live key was connected again.
   */
  lemma TableStaysOpen(msgs: seq<Message>, route: string -> Route)
    ensures var e := DispatchAll(Initial, msgs, route);
      && (forall k :: k in e.responders ==> e.responders[k] < |e.chans| && Open(e.chans[e.responders[k]].log))
      && (AllClosed(e) <==> e.responders == map[] && NoReuse(Initial, msgs, route))
  {
    DispatchAllKeepsTable(msgs, route, false);
    if NoReuse(Initial, msgs, route) {
      DispatchAllKeepsTable(msgs, route, true);
    } else {
      var n :| 0 <= n < |msgs| && ReusesAt(Initial, msgs, n, route);
      var h := ReuseLeavesStranded(msgs, route, n);
    }
  }

  /** Connecting a live key again strands its first channel: not even a read error closes it. */
  lemma ReusedKeyStrandsAChannel(key: string, url: string, route: string -> Route)
    requires route(url) == Found
    ensures var e := DispatchAll(Initial, [Message(key, CONNECT, url), Message(key, CONNECT, url)], route);
      |e.chans| == 2 && Open(CloseAll(e).chans[0].log)
  {
    var m := Message(key, CONNECT, url);
    assert [m, m][..1] == [m] && [m][..0] == [];
    assert DispatchAll(Initial, [], route) == Initial;
    var e1 := DispatchAll(Initial, [m], route);
    assert e1 == Dispatch(Initial, m, route);
    var e := DispatchAll(Initial, [m, m], route);
    assert e == Dispatch(e1, m, route);
    assert e.responders == map[key := 1];
  }

  // ----- no stream notices the others -----

  function Only(msgs: seq<Message>, key: string): seq<Message> {
    if msgs == [] then []
    else Only(msgs[..|msgs| - 1], key) + if msgs[|msgs| - 1].key == key then [msgs[|msgs| - 1]] else []
  }

  /** The key is in both tables or in neither, and its channels carried the same. */
  ghost predicate SameEntry(e: Endpoint, e': Endpoint, key: string) {
    && (key in e.responders <==> key in e'.responders)
    && (key in e.responders ==>
          e.responders[key] < |e.chans| && e'.responders[key] < |e'.chans| &&
            e.chans[e.responders[key]] == e'.chans[e'.responders[key]])
  }

  /** Two endpoints look the same from one key: its channel, what it carried, and the answers about it. */
  ghost predicate SameFor(e: Endpoint, e': Endpoint, key: string) {
    SameEntry(e, e', key) && Only(e.responses, key) == Only(e'.responses, key)
  }

  lemma OnlySnoc(msgs: seq<Message>, msg: Message, key: string)
    ensures Only(msgs + [msg], key) == if msg.key == key then Only(msgs, key) + [msg] else Only(msgs, key)
  {
    assert (msgs + [msg])[..|msgs|] == msgs;
    assert Only(msgs, key) + [] == Only(msgs, key);
  }

  /** A message about the key does the same to its entry and channel on both. */
  lemma OwnTable(e: Endpoint, e': Endpoint, msg: Message, route: string -> Route)
    requires SameEntry(e, e', msg.key)
    ensures SameEntry(Dispatch(e, msg, route), Dispatch(e', msg, route), msg.key)
  {
  }

  /** A message is answered with a Close, depending only on whether its key is in the table. */
  predicate Answers(known: bool, msg: Message, route: string -> Route) {
    if msg.kind == CONNECT then route(msg.body) == NoHandler
    else if msg.kind == BODY then !known
    else msg.kind != CLOSE
  }

  lemma AnswersAfter(e: Endpoint, msg: Message, route: string -> Route)
    ensures Dispatch(e, msg, route).responses
         == if Answers(msg.key in e.responders, msg, route) then e.responses + [Message(msg.key, CLOSE, "")]
           else e.responses
  {
  }

  lemma OwnAnswers(e: Endpoint, e': Endpoint, msg: Message, route: string -> Route)
    requires SameFor(e, e', msg.key)
    ensures Only(Dispatch(e, msg, route).responses, msg.key) == Only(Dispatch(e', msg, route).responses, msg.key)
  {
    AnswersAfter(e, msg, route);
    AnswersAfter(e', msg, route);
    OnlySnoc(e.responses, Message(msg.key, CLOSE, ""), msg.key);
    OnlySnoc(e'.responses, Message(msg.key, CLOSE, ""), msg.key);
  }

  lemma OwnMessage(e: Endpoint, e': Endpoint, msg: Message, route: string -> Route)
    requires SameFor(e, e', msg.key)
    ensures SameFor(Dispatch(e, msg, route), Dispatch(e', msg, route), msg.key)
  {
    OwnTable(e, e', msg, route);
    OwnAnswers(e, e', msg, route);
  }

  /** A message about another key leaves this key's entry and its channel alone. */
  lemma ForeignTable(e: Endpoint, msg: Message, key: string, route: string -> Route)
    requires TableInv(e, false) && msg.key != key
    ensures var e' := Dispatch(e, msg, route);
      && (key in e.responders <==> key in e'.responders)
      && (key in e.responders ==>
            && e'.responders[key] == e.responders[key] < |e'.chans|
            && e'.chans[e.responders[key]] == e.chans[e.responders[key]])
  {
    if key in e.responders && msg.key in e.responders {
      assert e.chans[e.responders[key]].key == key && e.chans[e.responders[msg.key]].key == msg.key;
    }
  }

  lemma ForeignAnswers(e: Endpoint, msg: Message, key: string, route: string -> Route)
    requires msg.key != key
    ensures Only(Dispatch(e, msg, route).responses, key) == Only(e.responses, key)
  {
    AnswersAfter(e, msg, route);
    OnlySnoc(e.responses, Message(msg.key, CLOSE, ""), key);
  }

  lemma ForeignMessage(e: Endpoint, e': Endpoint, msg: Message, key: string, route: string -> Route)
    requires TableInv(e, false) && SameFor(e, e', key) && msg.key != key
    ensures SameFor(Dispatch(e, msg, route), e', key)
  {
    ForeignTable(e, msg, key, route);
    ForeignAnswers(e, msg, key, route);
  }

  /**
   * Multiplexing is invisible: whatever is interleaved with it, the handler of a key is fed, and
   * the proxy is answered about it, exactly as if that key's messages had come alone.
   */
  lemma {:induction false} StreamsDoNotInterfere(msgs: seq<Message>, key: string, route: string -> Route)
    ensures SameFor(DispatchAll(Initial, msgs, route), DispatchAll(Initial, Only(msgs, key), route), key)
    decreases |msgs|
  {
    if msgs == [] {
    } else {
      var before, msg := msgs[..|msgs| - 1], msgs[|msgs| - 1];
      StreamsDoNotInterfere(before, key, route);
      var e, e' := DispatchAll(Initial, before, route), DispatchAll(Initial, Only(before, key), route);
      if msg.key == key {
        OwnMessage(e, e', msg, route);
        DispatchAllSnoc(Initial, Only(before, key), msg, route);
      } else {
        DispatchAllKeepsTable(before, route, false);
        ForeignMessage(e, e', msg, key, route);
        assert Only(before, key) + [] == Only(before, key);
      }
    }
  }

  // ----- what a handler is fed and the proxy is answered -----

  /** A key's latest channel after these messages, and the answers about the key; no channel before it was connected. */
  datatype Story = Story(log: Option<seq<Event<string>>>, answers: seq<Message>) {
    predicate Live() {
      log.Some? && Closed !in log.value
    }
  }

  /**
   * Told from the messages alone: a Connect to a handler starts a new channel, one to no handler is
   * answered by a Close; a Body goes into the live channel, or else is answered by a Close; anything
   * else closes the live channel, and is answered by a Close unless it is one.
   */
  function StoryOf(msgs: seq<Message>, key: string, route: string -> Route): Story {
    if msgs == [] then Story(None, [])
    else
      var s, msg := StoryOf(msgs[..|msgs| - 1], key, route), msgs[|msgs| - 1];
      var answered := s.(answers := s.answers + [Message(key, "2", "")]);
      if msg.key != key then s
      else if msg.kind == "0" then
        if route(msg.body) == Found then s.(log := Some([]))
        else if route(msg.body) == NoHandler then answered
        else s
      else if msg.kind == "1" then if s.Live() then s.(log := Some(s.log.value + [Sent(msg.body)])) else answered
      else
        var after := if s.Live() then s.(log := Some(s.log.value + [Closed])) else s;
        if msg.kind == "2" then after else after.(answers := s.answers + [Message(key, "2", "")])
  }

  /** Channel h is the latest of its key. */
  ghost predicate Latest(e: Endpoint, key: string, h: nat) {
    && h < |e.chans| && e.chans[h].key == key
    && forall g :: h < g < |e.chans| ==> e.chans[g].key != key
  }

  ghost predicate ChannelTells(e: Endpoint, key: string, s: Story) {
    && (s.log.None? ==> forall h :: 0 <= h < |e.chans| ==> e.chans[h].key != key)
    && (s.log.Some? ==> exists h: nat :: Latest(e, key, h) && e.chans[h].log == s.log.value)
    && (key in e.responders <==> s.Live())
    && (key in e.responders ==> Latest(e, key, e.responders[key]))
  }

  lemma ChannelOfOther(e: Endpoint, key: string, s: Story, msg: Message, route: string -> Route)
    requires TableInv(e, false) && ChannelTells(e, key, s) && msg.key != key
    ensures ChannelTells(Dispatch(e, msg, route), key, s)
  {
    var e' := Dispatch(e, msg, route);
    ForeignTable(e, msg, key, route);
    forall h | 0 <= h < |e.chans| && e.chans[h].key == key
      ensures h < |e'.chans| && e'.chans[h] == e.chans[h]
    {
      if msg.key in e.responders {
        assert e.chans[e.responders[msg.key]].key == msg.key;
      }
    }
    assert forall g :: |e.chans| <= g < |e'.chans| ==> e'.chans[g].key == msg.key;
    assert forall g :: 0 <= g < |e.chans| ==> e'.chans[g].key == e.chans[g].key;
    if s.log.Some? {
      var h: nat :| Latest(e, key, h) && e.chans[h].log == s.log.value;
      assert Latest(e', key, h);
    }
  }

  lemma ChannelConnected(e: Endpoint, s: Story, msg: Message, route: string -> Route)
    requires msg.kind == CONNECT && route(msg.body) == Found
    ensures ChannelTells(Dispatch(e, msg, route), msg.key, s.(log := Some([])))
  {
    var e' := Dispatch(e, msg, route);
    assert Latest(e', msg.key, |e.chans|) && e'.chans[|e.chans|].log == [];
  }

  /** A live channel is noted something more. */
  lemma ChannelNoted(e: Endpoint, key: string, s: Story, event: Event<string>, e': Endpoint)
    requires TableInv(e, false) && ChannelTells(e, key, s) && s.Live()
    requires e'.chans == Noted(e, e.responders[key], event).chans
    requires e'.responders == if event.Closed? then e.responders - {key} else e.responders
    ensures ChannelTells(e', key, s.(log := Some(s.log.value + [event])))
  {
    var h := e.responders[key];
    var g: nat :| Latest(e, key, g) && e.chans[g].log == s.log.value;
    assert g == h;
    assert e'.chans[h].log == s.log.value + [event] && Latest(e', key, h);
    assert event in s.log.value + [event];
  }

  lemma ChannelOfOwn(e: Endpoint, s: Story, msg: Message, route: string -> Route, s': Story)
    requires TableInv(e, false) && ChannelTells(e, msg.key, s)
    requires s'.log ==
      if msg.kind == CONNECT then (if route(msg.body) == Found then Some([]) else s.log)
      else if !s.Live() then s.log
      else Some(s.log.value + [if msg.kind == BODY then Sent(msg.body) else Closed])
    ensures ChannelTells(Dispatch(e, msg, route), msg.key, s')
  {
    if msg.kind == CONNECT {
      if route(msg.body) == Found {
        ChannelConnected(e, s, msg, route);
      }
    } else if s.Live() {
      ChannelNoted(e, msg.key, s, if msg.kind == BODY then Sent(msg.body) else Closed, Dispatch(e, msg, route));
    }
  }

  /**
   * For every message sequence the handler of a key is fed exactly its bodies, in order, and the
   * proxy is answered about the key exactly so often.
   */
  lemma {:induction false} HandlersAreFed(msgs: seq<Message>, key: string, route: string -> Route)
    ensures ChannelTells(DispatchAll(Initial, msgs, route), key, StoryOf(msgs, key, route))
    ensures Only(DispatchAll(Initial, msgs, route).responses, key) == StoryOf(msgs, key, route).answers
    decreases |msgs|
  {
    if msgs == [] {
    } else {
      var before, msg := msgs[..|msgs| - 1], msgs[|msgs| - 1];
      HandlersAreFed(before, key, route);
      DispatchAllKeepsTable(before, route, false);
      var e, s := DispatchAll(Initial, before, route), StoryOf(before, key, route);
      if msg.key == key {
        ChannelOfOwn(e, s, msg, route, StoryOf(msgs, key, route));
        AnswersAfter(e, msg, route);
        OnlySnoc(e.responses, Message(key, CLOSE, ""), key);
      } else {
        ChannelOfOther(e, key, s, msg, route);
        ForeignAnswers(e, msg, key, route);
      }
    }
  }

  // ----- choosing a handler -----

  function TrimSlash(s: string): string {
    if s != "" && s[|s| - 1] == '/' then s[..|s| - 1] else s
  }

  /** One slash at the end is taken off, and nothing else. */
  lemma TrimSlashExactly(s: string)
    ensures TrimSlash(s + "/") == s && (TrimSlash(s) == s || TrimSlash(s) + "/" == s)
  {
  }

  predicate PrefixMatch(path: string, key: string) {
    TrimSlash(path) == TrimSlash(key) || TrimSlash(key) + "/" <= TrimSlash(path)
  }

  /** Without a slash at its end, the key is the path or a front of it that ends at a slash: its parts come first. */
  lemma PrefixMatchExactly(path: string, key: string)
    ensures PrefixMatch(path, key) <==> Delegation.Split(TrimSlash(key)) <= Delegation.Split(TrimSlash(path))
  {
    FrontByParts(TrimSlash(key), TrimSlash(path));
  }

  lemma {:induction false} FrontByParts(k: string, p: string)
    ensures (p == k || k + "/" <= p) <==> Delegation.Split(k) <= Delegation.Split(p)
    decreases |k|
  {
    if k == "" {
      assert p != "" && p[0] != '/' ==> Delegation.Split(p)[0] != "";
      assert k + "/" == "/";
    } else if p == "" {
      assert k[0] != '/' ==> Delegation.Split(k)[0] != "";
    } else {
      FrontByParts(k[1..], p[1..]);
      FrontStep(k, p);
      SplitStep(k, p);
    }
  }

  lemma PrefixStep<T>(a: seq<T>, b: seq<T>)
    requires a != [] && b != []
    ensures a <= b <==> a[0] == b[0] && a[1..] <= b[1..]
  {
    if a[0] == b[0] && a[1..] <= b[1..] {
      forall i | 0 <= i < |a| ensures a[i] == b[i] {
        if i > 0 {
          assert a[i] == a[1..][i - 1] == b[1..][i - 1];
        }
      }
    }
  }

  /** Equal, or in front of a slash, by the first character. */
  lemma FrontStep(k: string, p: string)
    requires k != "" && p != ""
    ensures (p == k || k + "/" <= p) <==> k[0] == p[0] && (p[1..] == k[1..] || k[1..] + "/" <= p[1..])
  {
    assert (k + "/")[1..] == k[1..] + "/";
    PrefixStep(k + "/", p);
    assert p == k <==> p[0] == k[0] && p[1..] == k[1..] by {
      assert k == [k[0]] + k[1..] && p == [p[0]] + p[1..];
    }
  }

  lemma SplitStep(k: string, p: string)
    requires k != "" && p != ""
    ensures Delegation.Split(k) <= Delegation.Split(p) <==>
      k[0] == p[0] && Delegation.Split(k[1..]) <= Delegation.Split(p[1..])
  {
    var a, b := Delegation.Split(k[1..]), Delegation.Split(p[1..]);
    var x, y := Delegation.Split(k), Delegation.Split(p);
    if k[0] == '/' && p[0] == '/' {
      assert x[1..] == a && y[1..] == b;
      PrefixStep(x, y);
    } else if k[0] == '/' || p[0] == '/' {
      assert x[0] != y[0];
    } else {
      assert x[0] == [k[0]] + a[0] && y[0] == [p[0]] + b[0];
      assert x[0] == y[0] <==> k[0] == p[0] && a[0] == b[0] by {
        assert x[0][0] == k[0] && y[0][0] == p[0] && x[0][1..] == a[0] && y[0][1..] == b[0];
      }
      assert x[1..] == a[1..] && y[1..] == b[1..];
      PrefixStep(x, y);
      PrefixStep(a, b);
    }
  }

  /** What `getHandler` may answer for a path; the order of the map decides among several. */
  predicate Candidate<H(==)>(path: string, handlers: map<string, H>, handler: H) {
    if path in handlers then handler == handlers[path]
    else exists k :: k in handlers && PrefixMatch(path, k) && handlers[k] == handler
  }

  function FirstMatch<H>(path: string, handlers: map<string, H>, order: seq<string>): (r: Option<H>) {
    if path in handlers then Some(handlers[path])
    else if order == [] then None
    else if order[0] in handlers && PrefixMatch(path, order[0]) then Some(handlers[order[0]])
    else FirstMatch(path, handlers, order[1..])
  }

  /** The search in the order the map happens to yield. */
  method GetHandler<H(==)>(path: string, handlers: map<string, H>) returns (r: Option<H>, ghost order: seq<string>)
    ensures forall k :: k in order ==> k in handlers
    ensures r == FirstMatch(path, handlers, order)
    ensures r.Some? ==> Candidate(path, handlers, r.value)
    ensures r.None? ==> forall h :: !Candidate(path, handlers, h)
  {
    order := [];
    if path in handlers {
      return Some(handlers[path]), [];
    }
    var pending := handlers.Keys;
    while pending != {}
      invariant pending <= handlers.Keys
      invariant forall k :: k in order <==> k in handlers && k !in pending
      invariant forall k :: k in order ==> !PrefixMatch(path, k)
      decreases pending
    {
      var key :| key in pending;
      pending := pending - {key};
      if PrefixMatch(path, key) {
        SkipMisses(path, handlers, order, key);
        order := order + [key];
        return Some(handlers[key]), order;
      }
      order := order + [key];
    }
    NoMatch(path, handlers, order);
    return None, order;
  }

  lemma {:induction false} SkipMisses<H>(path: string, handlers: map<string, H>, misses: seq<string>, key: string)
    requires path !in handlers && key in handlers && PrefixMatch(path, key)
    requires forall k :: k in misses ==> !PrefixMatch(path, k)
    ensures FirstMatch(path, handlers, misses + [key]) == Some(handlers[key])
    decreases |misses|
  {
    if misses == [] {
      assert misses + [key] == [key];
    } else {
      assert (misses + [key])[1..] == misses[1..] + [key];
      assert misses[0] in misses;
      SkipMisses(path, handlers, misses[1..], key);
    }
  }

  lemma {:induction false} NoMatch<H>(path: string, handlers: map<string, H>, misses: seq<string>)
    requires path !in handlers
    requires forall k :: k in misses ==> !PrefixMatch(path, k)
    ensures FirstMatch(path, handlers, misses) == None
    decreases |misses|
  {
    if misses == [] {
    } else {
      NoMatch(path, handlers, misses[1..]);
    }
  }

  lemma {:induction false} FirstMatchIsCandidate<H>(path: string, handlers: map<string, H>, order: seq<string>)
    ensures FirstMatch(path, handlers, order).Some? ==>
      Candidate(path, handlers, FirstMatch(path, handlers, order).value)
    ensures (forall k :: k in handlers ==> k in order) && FirstMatch(path, handlers, order).None? ==>
      forall h :: !Candidate(path, handlers, h)
    decreases |order|
  {
    MissesOnly(path, handlers, order);
    if path !in handlers && order != [] && !(order[0] in handlers && PrefixMatch(path, order[0])) {
      FirstMatchIsCandidate(path, handlers, order[1..]);
    }
  }

  lemma {:induction false} MissesOnly<H>(path: string, handlers: map<string, H>, order: seq<string>)
    ensures FirstMatch(path, handlers, order).None? ==>
      path !in handlers && forall k :: k in order && k in handlers ==> !PrefixMatch(path, k)
    decreases |order|
  {
    if path !in handlers && order != [] {
      MissesOnly(path, handlers, order[1..]);
    }
  }

  /** Every candidate is the answer under some iteration order. */
  lemma EveryCandidateCanWin<H>(path: string, handlers: map<string, H>, handler: H) returns (order: seq<string>)
    requires Candidate(path, handlers, handler)
    ensures Lists(order, handlers.Keys) && FirstMatch(path, handlers, order) == Some(handler)
  {
    if path in handlers {
      order := ListKeys(handlers.Keys);
    } else {
      var k :| k in handlers && PrefixMatch(path, k) && handlers[k] == handler;
      var rest := ListKeys(handlers.Keys - {k});
      order := [k] + rest;
    }
  }

  /**
   * The code returns the first match of an unordered map: its answer is the same for all iteration
   * orders exactly when the path has at most one candidate.
   */
  lemma HandlerSettledExactly<H>(path: string, handlers: map<string, H>)
    ensures (forall g, h :: Candidate(path, handlers, g) && Candidate(path, handlers, h) ==> g == h)
      <==> (forall o1, o2 :: Lists(o1, handlers.Keys) && Lists(o2, handlers.Keys) ==>
              FirstMatch(path, handlers, o1) == FirstMatch(path, handlers, o2))
  {
    if forall g, h :: Candidate(path, handlers, g) && Candidate(path, handlers, h) ==> g == h {
      forall o1, o2 | Lists(o1, handlers.Keys) && Lists(o2, handlers.Keys)
        ensures FirstMatch(path, handlers, o1) == FirstMatch(path, handlers, o2)
      {
        FirstMatchIsCandidate(path, handlers, o1);
        FirstMatchIsCandidate(path, handlers, o2);
      }
    } else {
      var g, h :| Candidate(path, handlers, g) && Candidate(path, handlers, h) && g != h;
      var o1 := EveryCandidateCanWin(path, handlers, g);
      var o2 := EveryCandidateCanWin(path, handlers, h);
    }
  }

  /** The matching keys with the longest trimmed form; the path itself, if it is registered. */
  ghost predicate BestKey<H>(path: string, handlers: map<string, H>, key: string) {
    && key in handlers
    && (path in handlers ==> key == path)
    && (path !in handlers ==> PrefixMatch(path, key))
    && (path !in handlers ==> forall k :: k in handlers && PrefixMatch(path, k) ==> |TrimSlash(k)| <= |TrimSlash(key)|)
  }

  ghost predicate BestMatch<H(!new)>(path: string, handlers: map<string, H>, handler: H) {
    exists k :: BestKey(path, handlers, k) && handlers[k] == handler
  }

  /**
   * The comment's promise, exactly: under every iteration order the answer is a best match if and
   * only if every matching handler is the handler of a best key.
   */
  lemma BestMatchExactly<H(!new)>(path: string, handlers: map<string, H>)
    ensures (forall h :: Candidate(path, handlers, h) ==> BestMatch(path, handlers, h))
      <==> (forall order :: Lists(order, handlers.Keys) && FirstMatch(path, handlers, order).Some? ==>
              BestMatch(path, handlers, FirstMatch(path, handlers, order).value))
  {
    if forall h :: Candidate(path, handlers, h) ==> BestMatch(path, handlers, h) {
      forall order | Lists(order, handlers.Keys) && FirstMatch(path, handlers, order).Some?
        ensures BestMatch(path, handlers, FirstMatch(path, handlers, order).value)
      {
        FirstMatchIsCandidate(path, handlers, order);
      }
    } else {
      var h :| Candidate(path, handlers, h) && !BestMatch(path, handlers, h);
      var order := EveryCandidateCanWin(path, handlers, h);
    }
  }

  /** An exact match is always the best. */
  lemma ExactMatchIsBest<H(!new)>(path: string, handlers: map<string, H>, handler: H)
    requires path in handlers && Candidate(path, handlers, handler)
    ensures BestMatch(path, handlers, handler)
  {
    assert BestKey(path, handlers, path);
  }

  lemma BestMatchNotPromised()
    ensures var handlers := map["/v1" := 1, "/v1/stats" := 2];
      FirstMatch("/v1/stats/x", handlers, ["/v1", "/v1/stats"]) == Some(1)
      && FirstMatch("/v1/stats/x", handlers, ["/v1/stats", "/v1"]) == Some(2)
  {
    assert TrimSlash("/v1") + "/" <= "/v1/stats/x" && TrimSlash("/v1/stats") + "/" <= "/v1/stats/x";
  }

  // ----- the loop -----

  /** Channel h after a read error has closed what the table names, but for the pending keys. */
  ghost function ClosedBut(e: Endpoint, pending: set<string>, h: nat): Responder
    requires h < |e.chans|
  {
    if exists k :: k in e.responders && k !in pending && e.responders[k] == h
      then e.chans[h].(log := e.chans[h].log + [Closed]) else e.chans[h]
  }

  /** The messages are what the first frames are parsed to. */
  predicate ReadAs(frames: seq<string>, msgs: seq<Message>) {
    |msgs| <= |frames| && forall n :: 0 <= n < |msgs| ==> ParseMessageSafe(frames[n]) == Ok(msgs[n])
  }

  lemma ReadOneMore(frames: seq<string>, msgs: seq<Message>, msg: Message)
    requires ReadAs(frames, msgs) && |msgs| < |frames| && ParseMessageSafe(frames[|msgs|]) == Ok(msg)
    ensures ReadAs(frames, msgs + [msg])
  {
  }

  /** The dispatch loop over the frames read before the connection ends with a read error. */
  class ProxyConnection {
    var responders: map<string, nat>
    var chans: seq<Responder>
    var responseChannel: seq<Message>

    function State(): Endpoint
      reads this
    {
      Endpoint(responders, chans, responseChannel)
    }

    constructor ()
      ensures State() == Initial
    {
      responders, chans, responseChannel := map[], [], [];
    }

    /** The loop up to its exit: the frames before the first malformed one are served in order. */
    method ServeFrames(frames: seq<string>, route: string -> Route) returns (served: seq<Message>)
      requires State() == Initial
      modifies this
      ensures |served| <= |frames| && ReadAs(frames, served)
      ensures |served| < |frames| ==> ParseMessageSafe(frames[|served|]).Err?
      ensures State() == DispatchAll(Initial, served, route)
    {
      served := [];
      for n := 0 to |frames|
        invariant |served| == n && ReadAs(frames, served)
        invariant State() == DispatchAll(Initial, served, route)
      {
        var parsed := HandleFrame(frames[n], route);
        if parsed.Err? {
          return;
        }
        DispatchAllSnoc(Initial, served, parsed.value, route);
        ReadOneMore(frames, served, parsed.value);
        served := served + [parsed.value];
      }
    }

    /**
     * The frames that arrive before the socket fails. A malformed frame makes the loop return and
     * leaves the channels of the table open; the read error closes them, and with that all channels
     * exactly if no live key was connected again.
     */
    method Serve(frames: seq<string>, route: string -> Route) returns (served: seq<Message>)
      requires State() == Initial
      modifies this
      ensures |served| <= |frames| && ReadAs(frames, served)
      ensures |served| < |frames| ==> ParseMessageSafe(frames[|served|]).Err?
      ensures State() == if |served| < |frames| then DispatchAll(Initial, served, route)
        else CloseAll(DispatchAll(Initial, served, route))
      ensures |served| < |frames| ==> (AllClosed(State()) <==> responders == map[] && NoReuse(Initial, served, route))
      ensures |served| == |frames| ==> (AllClosed(State()) <==> NoReuse(Initial, served, route))
    {
      served := ServeFrames(frames, route);
      TableStaysOpen(served, route);
      if |served| == |frames| {
        DispatchAllKeepsTable(served, route, false);
        RespondersNeverMisused(served, route);
        CloseResponders();
      }
    }

    /** The loop over the table on a read error, in whatever order the map yields it. */
    method CloseResponders()
      requires TableInv(State(), false)
      modifies this`chans
      ensures State() == CloseAll(old(State()))
    {
      ghost var was := State();
      var pending := responders.Keys;
      while pending != {}
        invariant pending <= responders.Keys && |chans| == |was.chans|
        invariant forall h :: 0 <= h < |chans| ==> chans[h] == ClosedBut(was, pending, h)
        decreases pending
      {
        var key :| key in pending;
        pending := pending - {key};
        chans := chans[responders[key] := chans[responders[key]].(log := chans[responders[key]].log + [Closed])];
      }
      assert chans == CloseAll(was).chans;
    }

    method HandleFrame(frame: string, route: string -> Route) returns (parsed: Result<Message, ParseError>)
      modifies this
      ensures parsed == ParseMessageSafe(frame)
      ensures State() == if parsed.Ok? then Dispatch(old(State()), parsed.value, route) else old(State())
    {
      parsed := ParseMessageSafe(frame);
      if parsed.Ok? {
        Handle(parsed.value, route);
      }
    }

    /** One turn of the loop. */
    method Handle(msg: Message, route: string -> Route)
      modifies this
      ensures State() == Dispatch(old(State()), msg, route)
    {
      if msg.kind == CONNECT {
        match route(msg.body) {
          case BadUrl =>
          case Found =>
            responders := responders[msg.key := |chans|];
            chans := chans + [Responder(msg.key, [])];
          case NoHandler =>
            responseChannel := responseChannel + [Message(msg.key, CLOSE, "")];
        }
      } else if msg.kind == BODY {
        if msg.key in responders {
          Note(responders[msg.key], Sent(msg.body));
        } else {
          responseChannel := responseChannel + [Message(msg.key, CLOSE, "")];
        }
      } else {
        if msg.key in responders {
          Note(responders[msg.key], Closed);
          responders := responders - {msg.key};
        }
        if msg.kind != CLOSE {
          responseChannel := responseChannel + [Message(msg.key, CLOSE, "")];
        }
      }
    }

    method Note(h: nat, event: Event<string>)
      modifies this`chans
      ensures State() == Noted(old(State()), h, event)
    {
      if h < |chans| {
        chans := chans[h := chans[h].(log := chans[h].log + [event])];
      }
    }
  }
}
