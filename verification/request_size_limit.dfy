/** RequestSizeLimitMiddleware: a body limit around an arbitrary application. */
module RequestSizeLimit {

  /** What receive() yields: a piece of the body, or any other message. */
  datatype Message = Request(body: seq<bv8>) | Other(kind: string)

  /** What the client is sent. */
  datatype Response = Begin(status: int) | Rest

  /** What the application does, one await at a time: it may go on after a refusal. */
  datatype Action = Receive(message: Message) | Send(response: Response)

  /** How the application ends. TooLarge is the middleware's own exception, let through. */
  datatype Ending = Returned | TooLarge | Failed

  /** The Content-Length header: missing or empty, no number, or a number. */
  datatype Declared = Absent | Unreadable | Length(value: int)

  /** consumed: what receive() has yielded; delivered: what the application got of it. */
  datatype State = State(
    received: nat, started: bool, consumed: seq<Message>, delivered: seq<Message>, sent: seq<Response>, refused: bool)

  const FRESH := State(0, false, [], [], [], false)

  function Size(m: Message): nat { if m.Request? then |m.body| else 0 }

  function Total(ms: seq<Message>): nat {
    if ms == [] then 0 else Total(ms[..|ms| - 1]) + Size(ms[|ms| - 1])
  }

  /** One call of limited_receive or tracking_send. */
  function Apply(max: int, s: State, act: Action): State {
    match act
    case Receive(m) =>
      var received := s.received + Size(m);
      var over := m.Request? && received > max;
      s.(received := received, consumed := s.consumed + [m], refused := s.refused || over,
         delivered := if over then s.delivered else s.delivered + [m])
    case Send(r) => s.(started := s.started || r.Begin?, sent := s.sent + [r])
  }

  function Exec(max: int, acts: seq<Action>): State {
    if acts == [] then FRESH else Apply(max, Exec(max, acts[..|acts| - 1]), acts[|acts| - 1])
  }

  const REFUSAL := [Begin(413), Rest]

  /** Only the middleware raises TooLarge. */
  predicate MayEnd(s: State, ending: Ending) { ending.TooLarge? ==> s.refused }

  /** What the client has been sent when __call__ is over. */
  function Answered(max: int, http: bool, declared: Declared, acts: seq<Action>, ending: Ending): seq<Response> {
    if !http then Sent(acts)
    else if DeclaredTooLarge(max, declared) then REFUSAL
    else
      var s := Exec(max, acts);
      if ending.TooLarge? && !s.started then s.sent + REFUSAL else s.sent
  }

  /** What the application itself sends. */
  function Sent(acts: seq<Action>): seq<Response> {
    if acts == [] then []
    else
      var last := acts[|acts| - 1];
      Sent(acts[..|acts| - 1]) + if last.Send? then [last.response] else []
  }

  function Consumed(acts: seq<Action>): seq<Message> {
    if acts == [] then []
    else
      var last := acts[|acts| - 1];
      Consumed(acts[..|acts| - 1]) + if last.Receive? then [last.message] else []
  }

  // ------------------------------------------------------------------ what the application receives

  function Requests(ms: seq<Message>): seq<Message> {
    if ms == [] then []
    else Requests(ms[..|ms| - 1]) + if ms[|ms| - 1].Request? then [ms[|ms| - 1]] else []
  }

  function Others(ms: seq<Message>): seq<Message> {
    if ms == [] then []
    else Others(ms[..|ms| - 1]) + if ms[|ms| - 1].Request? then [] else [ms[|ms| - 1]]
  }

  lemma Snoc(ms: seq<Message>, m: Message)
    ensures Requests(ms + [m]) == if m.Request? then Requests(ms) + [m] else Requests(ms)
    ensures Others(ms + [m]) == if m.Request? then Others(ms) else Others(ms) + [m]
    ensures Total(ms + [m]) == Total(ms) + Size(m)
  {
    assert (ms + [m])[..|ms|] == ms;
  }

  /** The n leading messages fit, and one more would not. Nothing at all always fits. */
  predicate LongestFitting(max: int, ms: seq<Message>, n: nat) {
    n <= |ms| && (n == 0 || Total(ms[..n]) <= max) && (n < |ms| ==> Total(ms[..n + 1]) > max)
  }

  lemma {:induction false} TotalGrows(ms: seq<Message>, i: nat, j: nat)
    requires i <= j <= |ms|
    ensures Total(ms[..i]) <= Total(ms[..j])
  {
    if i < j {
      TotalGrows(ms, i, j - 1);
      assert ms[..j][..j - 1] == ms[..j - 1];
    }
  }

  lemma {:induction false} RequestsOnly(ms: seq<Message>)
    ensures (forall i | 0 <= i < |Requests(ms)| :: Requests(ms)[i].Request?) && Total(Requests(ms)) == Total(ms)
  {
    if ms != [] {
      var n := |ms| - 1;
      RequestsOnly(ms[..n]);
      Snoc(Requests(ms[..n]), ms[n]);
      assert !ms[n].Request? ==> Requests(ms) == Requests(ms[..n]);
    }
  }

  ghost predicate Inv(max: int, s: State) {
    s.received == Total(s.consumed) && Others(s.delivered) == Others(s.consumed) &&
    Requests(s.delivered) <= Requests(s.consumed) &&
    LongestFitting(max, Requests(s.consumed), |Requests(s.delivered)|) &&
    (s.refused <==> |Requests(s.delivered)| < |Requests(s.consumed)|)
  }

  /** A message after the first refusal is refused too. */
  lemma StillRefused(max: int, ms: seq<Message>, n: nat, m: Message)
    requires LongestFitting(max, ms, n) && n < |ms|
    ensures LongestFitting(max, ms + [m], n) && Total(ms) > max
  {
    assert (ms + [m])[..n + 1] == ms[..n + 1] && (ms + [m])[..n] == ms[..n];
    TotalGrows(ms, n + 1, |ms|);
    assert ms[..|ms|] == ms;
  }

  lemma NextFitsIff(max: int, ms: seq<Message>, m: Message)
    requires LongestFitting(max, ms, |ms|)
    ensures LongestFitting(max, ms + [m], if Total(ms) + Size(m) <= max then |ms| + 1 else |ms|)
  {
    Snoc(ms, m);
    var all := ms + [m];
    assert all[..|ms|] == ms[..|ms|] && all[..|ms| + 1] == all;
  }

  lemma RequestKeepsInv(max: int, s: State, m: Message, rs: seq<Message>, ds: seq<Message>)
    requires Inv(max, s) && m.Request? && rs == Requests(s.consumed) && ds == Requests(s.delivered)
    ensures Inv(max, Apply(max, s, Receive(m)))
  {
    Snoc(s.consumed, m);
    Snoc(s.delivered, m);
    RequestsOnly(s.consumed);
    if |ds| < |rs| {
      StillRefused(max, rs, |ds|, m);
    } else {
      assert ds == rs;
      NextFitsIff(max, rs, m);
    }
  }

  lemma ReceiveKeepsInv(max: int, s: State, m: Message)
    requires Inv(max, s)
    ensures Inv(max, Apply(max, s, Receive(m)))
  {
    if m.Request? {
      RequestKeepsInv(max, s, m, Requests(s.consumed), Requests(s.delivered));
    } else {
      Snoc(s.consumed, m);
      Snoc(s.delivered, m);
    }
  }

  lemma {:induction false} RunKeepsInv(max: int, acts: seq<Action>)
    ensures Inv(max, Exec(max, acts))
    ensures Exec(max, acts).consumed == Consumed(acts) && Exec(max, acts).sent == Sent(acts)
    ensures Exec(max, acts).started <==> exists i :: 0 <= i < |Sent(acts)| && Sent(acts)[i].Begin?
  {
    if acts != [] {
      var n := |acts| - 1;
      RunKeepsInv(max, acts[..n]);
      var s := Exec(max, acts[..n]);
      match acts[n] {
        case Receive(m) => ReceiveKeepsInv(max, s, m);
        case Send(r) => SendStarts(s.sent, r);
      }
    }
  }

  lemma SendStarts(sent: seq<Response>, r: Response)
    ensures var all := sent + [r];
            (exists i :: 0 <= i < |all| && all[i].Begin?) <==>
            r.Begin? || exists i :: 0 <= i < |sent| && sent[i].Begin?
  {
    var all := sent + [r];
    assert all[|sent|] == r;
    assert forall i | 0 <= i < |sent| :: all[i] == sent[i];
  }

  /** Whatever the application does, even if it swallows the refusal and reads on: the body
      messages it receives are the longest prefix of those sent whose total stays within
      the limit, every other message reaches it, and it is refused exactly when the prefix
      is not the whole. */
  lemma ReceivesLongestPrefix(max: int, acts: seq<Action>)
    ensures var s := Exec(max, acts);
            Requests(s.delivered) <= Requests(Consumed(acts)) &&
            LongestFitting(max, Requests(Consumed(acts)), |Requests(s.delivered)|) &&
            Others(s.delivered) == Others(Consumed(acts)) &&
            (s.refused <==> Requests(s.delivered) != Requests(Consumed(acts)))
  {
    RunKeepsInv(max, acts);
    var s := Exec(max, acts);
    var ds, rs := Requests(s.delivered), Requests(s.consumed);
    assert |ds| == |rs| ==> ds == rs;
  }

  /** The prefix is the longest one: any prefix that fits is no longer. */
  lemma NoLongerPrefixFits(max: int, ms: seq<Message>, n: nat, longer: nat)
    requires LongestFitting(max, ms, n) && longer <= |ms| && Total(ms[..longer]) <= max
    ensures longer <= n
  {
    if n < longer { TotalGrows(ms, n + 1, longer); }
  }

  /** An application whose requests fit the limit is never interfered with. */
  lemma SmallBodiesPass(max: int, acts: seq<Action>)
    requires Total(Consumed(acts)) <= max
    ensures !Exec(max, acts).refused && Requests(Exec(max, acts).delivered) == Requests(Consumed(acts))
  {
    var rs := Requests(Consumed(acts));
    ReceivesLongestPrefix(max, acts);
    RequestsOnly(Consumed(acts));
    assert rs[..|rs|] == rs;
    NoLongerPrefixFits(max, rs, |Requests(Exec(max, acts).delivered)|, |rs|);
  }

  // ------------------------------------------------------------------ what the client is sent

  function Begins(rs: seq<Response>): nat {
    if rs == [] then 0 else Begins(rs[..|rs| - 1]) + if rs[|rs| - 1].Begin? then 1 else 0
  }

  lemma {:induction false} BeginsZero(rs: seq<Response>)
    ensures Begins(rs) == 0 <==> !exists i :: 0 <= i < |rs| && rs[i].Begin?
  {
    if rs != [] {
      var n := |rs| - 1;
      BeginsZero(rs[..n]);
      assert rs[..n] + [rs[n]] == rs;
      SendStarts(rs[..n], rs[n]);
    }
  }

  lemma BeginsOfRefused(rs: seq<Response>)
    ensures Begins(rs + REFUSAL) == Begins(rs) + 1 && Begins(REFUSAL) == 1
  {
    assert (rs + REFUSAL)[..|rs| + 1] == rs + [Begin(413)] && (rs + [Begin(413)])[..|rs|] == rs;
    assert REFUSAL[..1] == [Begin(413)] && [Begin(413)][..0] == [];
  }

  predicate DeclaredTooLarge(max: int, declared: Declared) { declared.Length? && declared.value > max }

  /** The middleware never adds a second response start: after everything the application
      sent it starts a response of its own exactly when a refusal was let through and the
      application had started none. */
  lemma NoSecondStart(max: int, http: bool, declared: Declared, acts: seq<Action>, ending: Ending)
    ensures var answer := Answered(max, http, declared, acts, ending);
            if http && declared.Length? && declared.value > max then answer == [Begin(413), Rest]
            else Sent(acts) <= answer &&
                 Begins(answer) == if http && ending.TooLarge? && Begins(Sent(acts)) == 0 then 1 else Begins(Sent(acts))
  {
    var s := Exec(max, acts);
    RunKeepsInv(max, acts);
    BeginsZero(s.sent);
    BeginsOfRefused(s.sent);
  }

  /** A 413 of the middleware's own means the declared length was too large, or the body
      was; and then the application had not begun to answer. */
  lemma RefusalIsJustified(max: int, declared: Declared, acts: seq<Action>, ending: Ending)
    requires MayEnd(Exec(max, acts), ending) && Answered(max, true, declared, acts, ending) != Sent(acts)
    ensures (declared.Length? && declared.value > max &&
             Answered(max, true, declared, acts, ending) == [Begin(413), Rest]) ||
            (Total(Consumed(acts)) > max && Begins(Sent(acts)) == 0 &&
             Answered(max, true, declared, acts, ending) == Sent(acts) + [Begin(413), Rest])
  {
    RunKeepsInv(max, acts);
    BeginsZero(Sent(acts));
    if Total(Consumed(acts)) <= max { SmallBodiesPass(max, acts); }
  }

  // ------------------------------------------------------------------ the closures

  class Limiter {
    const max: int
    var received: nat
    var started: bool
    ghost var consumed: seq<Message>
    ghost var delivered: seq<Message>
    var sent: seq<Response>
    ghost var refused: bool

    ghost function Snapshot(): State
      reads this
    {
      State(received, started, consumed, delivered, sent, refused)
    }

    constructor (max: int)
      ensures this.max == max && Snapshot() == FRESH
    {
      this.max, received, started, sent := max, 0, false, [];
      consumed, delivered, refused := [], [], false;
    }

    /** limited_receive; raised stands for the exception. */
    method LimitedReceive(message: Message) returns (raised: bool)
      modifies this
      ensures Snapshot() == Apply(max, old(Snapshot()), Receive(message))
      ensures raised <==> message !in (Snapshot().delivered[|old(delivered)|..])
    {
      consumed := consumed + [message];
      if message.Request? {
        received := received + |message.body|;
        if received > max {
          refused := true;
          return true;
        }
      }
      delivered := delivered + [message];
      raised := false;
    }

    /** tracking_send */
    method TrackingSend(response: Response)
      modifies this
      ensures Snapshot() == Apply(max, old(Snapshot()), Send(response))
    {
      if response.Begin? { started := true; }
      sent := sent + [response];
    }

    /** __call__ before the application is called; true if it is not. */
    method Precheck(declared: Declared) returns (rejected: bool)
      requires Snapshot() == FRESH
      modifies this`sent
      ensures rejected == DeclaredTooLarge(max, declared)
      ensures rejected ==> forall acts, ending :: sent == Answered(max, true, declared, acts, ending)
      ensures !rejected ==> Snapshot() == FRESH
    {
      rejected := false;
      if declared.Length? {
        if declared.value > max {
          sent := REFUSAL;
          rejected := true;
        }
      }
    }

    /** __call__ after the application has ended. */
    method Conclude(declared: Declared, ending: Ending, ghost acts: seq<Action>)
      requires !DeclaredTooLarge(max, declared) && Snapshot() == Exec(max, acts)
      modifies this`sent
      ensures sent == Answered(max, true, declared, acts, ending)
    {
      if ending.TooLarge? {
        if !started { sent := sent + REFUSAL; }
      }
    }
  }
}
