/**
 What construction, connect and accept do with the handles of a Connection, in terms of the
 answers that the provider gives them.
 */
module Setup {
  import opened Common
  import opened Fabric
  import opened Ownership

  /** What accept does with the handles: the server keeps its fabric, event queue and
      regions, the new connection w gets an endpoint with its domain and queues. */
  predicate HandsOver(before: Conn, v: Conn, w: Conn) {
    && v.domain.None? && v.ep.None? && v.rxCq.None? && v.txCq.None?
    && v.fab == before.fab && v.eq == before.eq && v.mrs == before.mrs
    && w.domain.Some? && w.ep.Some? && w.rxCq.Some? && w.txCq.Some?
    && w.fab.None? && w.pep.None? && w.eq.None? && w.mrs == Some(map[])
  }

  /** h was not there before. */
  predicate New(objs: Objects, h: Option<nat>) {
    h.Some? && h.value >= |objs|
  }

  /** h was opened on y, or bound to it. */
  predicate On(objs: Objects, h: Option<nat>, y: Option<nat>) {
    h.Some? && y.Some? && h.value < |objs| && y.value in objs[h.value].deps
  }

  /** A domain was opened on the connection's fabric. */
  predicate NewDomain(objs: Objects, objs': Objects, c: Conn) {
    New(objs, c.domain) && On(objs', c.domain, c.fab)
  }

  /** Both completion queues were opened on the domain. */
  predicate NewQueues(objs: Objects, objs': Objects, c: Conn) {
    New(objs, c.rxCq) && New(objs, c.txCq) && On(objs', c.rxCq, c.domain) && On(objs', c.txCq, c.domain)
  }

  predicate QueuesBound(objs: Objects, c: Conn) {
    On(objs, c.ep, c.rxCq) && On(objs, c.ep, c.txCq)
  }

  /** The domain, and the endpoint on it: a new one each, or the old handle if that was refused. */
  predicate Opened(objs: Objects, c: Conn, objs': Objects, c': Conn, answers: seq<bool>) {
    && (if Answer(answers, 0) then NewDomain(objs, objs', c') else c'.domain == c.domain)
    && (if Answer(answers, 1) then New(objs, c'.ep) && On(objs', c'.ep, c'.domain) else c'.ep == c.ep)
  }

  /** Setting up an endpoint, with the eight answers at the front of `answers`, took the
      handles from c to c'.  Both queues are new, on the domain, and the endpoint is bound to
      them, and to the event queue unless that was refused. */
  predicate Equipped(objs: Objects, c: Conn, objs': Objects, c': Conn, answers: seq<bool>) {
    && Opened(objs, c, objs', c', answers)
    && NewQueues(objs, objs', c') && QueuesBound(objs', c')
    && (Answer(answers, 6) ==> On(objs', c'.ep, c'.eq))
  }

  lemma {:induction false} OpenedInTwo(o0: Objects, c0: Conn, o1: Objects, c1: Conn, o2: Objects, c2: Conn,
      answers: seq<bool>)
    requires Grows(o0, o1) && Grows(o1, o2) && c1.ep == c0.ep && c2.domain == c1.domain && c2.fab == c1.fab
    requires if Answer(answers, 0) then NewDomain(o0, o1, c1) else c1.domain == c0.domain
    requires if Answer(answers, 1) then New(o1, c2.ep) && On(o2, c2.ep, c2.domain) else c2.ep == c1.ep
    ensures Opened(o0, c0, o2, c2, answers)
  {
  }

  /** With only favourable answers, the endpoint depends on its domain, on both queues and on
      the event queue, and the domain on the fabric. */
  lemma {:induction false} EquippedFully(objs: Objects, c: Conn, objs': Objects, c': Conn, answers: seq<bool>)
    requires Equipped(objs, c, objs', c', answers) && Granted(answers, 8)
    ensures On(objs', c'.domain, c'.fab) && On(objs', c'.rxCq, c'.domain) && On(objs', c'.txCq, c'.domain)
    ensures {c'.domain.value, c'.rxCq.value, c'.txCq.value, c'.eq.value} <= objs'[c'.ep.value].deps
  {
    assert Answer(answers, 0) && Answer(answers, 1) && Answer(answers, 6);
  }

  /** First the domain and the endpoint, then the rest. */
  lemma {:induction false} EquippedInTwo(o0: Objects, c0: Conn, o1: Objects, c1: Conn, o2: Objects, c2: Conn,
      answers: seq<bool>)
    requires Opened(o0, c0, o1, c1, answers) && Grows(o1, o2) && |o0| <= |o1|
    requires c2.domain == c1.domain && c2.ep == c1.ep && c2.fab == c1.fab
    requires NewQueues(o1, o2, c2) && QueuesBound(o2, c2) && (Answer(answers, 6) ==> On(o2, c2.ep, c2.eq))
    ensures Equipped(o0, c0, o2, c2, answers)
  {
  }

  /** Counted from an earlier state, and seen at a later one. */
  lemma {:induction false} EquippedWider(objs: Objects, o1: Objects, c: Conn, c1: Conn, o2: Objects, objs': Objects,
      c': Conn, answers: seq<bool>)
    requires Equipped(o1, c1, o2, c', answers) && c1.domain == c.domain && c1.ep == c.ep
    requires |objs| <= |o1| && |o2| <= |objs'| && forall i :: 0 <= i < |o2| ==> o2[i].deps <= objs'[i].deps
    ensures Equipped(objs, c, objs', c', answers)
  {
  }

  // try_setup_active_ep and setup_active_ep get eight answers: fi_domain, fi_endpoint, four in
  // setup_cqs, the binding of the event queue, and fi_enable.

  /** When setting up an endpoint ends the process.  try_setup_active_ep (!must) survives a
      refused fi_domain or fi_endpoint if there is an older handle to go on with, and always a
      refused binding of the event queue or fi_enable. */
  ghost predicate SetupDies(c: Conn, answers: seq<bool>, must: bool) {
    || c.fab.None? || c.eq.None?
    || (c.domain.None? && !Answer(answers, 0))
    || (c.ep.None? && !Answer(answers, 1))
    || !Granted(Skip(answers, 2), 4)
    || (must && !Granted(answers, 8))
  }

  /** The answers one after the other. */
  lemma {:induction false} SetupDeath(answers: seq<bool>)
    ensures Answer(Skip(answers, 1), 0) == Answer(answers, 1)
    ensures Granted(answers, 2) <==> Answer(answers, 0) && Answer(answers, 1)
    ensures Granted(answers, 8) <==> Granted(answers, 2) && Granted(Skip(answers, 2), 6)
    ensures Granted(Skip(answers, 2), 6) ==> Granted(Skip(answers, 2), 4)
  {
    AnswerLater(answers, 1, 0);
    GrantedTwo(answers);
    GrantedSplits(answers, 2, 6);
    GrantedSplits(Skip(answers, 2), 4, 2);
  }

  /** First the domain and the endpoint on it, then the rest. */
  lemma {:induction false} SetupDiesIff(c: Conn, answers: seq<bool>, must: bool)
    requires c.fab.Some?
    ensures SetupDies(c, answers, must) <==>
              || (c.domain.None? && !Answer(answers, 0)) || (must && !Granted(answers, 2))
              || (c.ep.None? && !Answer(answers, 1)) || c.eq.None?
              || !Granted(Skip(answers, 2), 4) || (must && !Granted(Skip(answers, 2), 6))
  {
    SetupDeath(answers);
  }

  /** For a client, whose setup is checked. */
  lemma {:induction false} SetupOfClientDies(c: Conn, answers: seq<bool>)
    ensures SetupDies(c, answers, true) <==> c.fab.None? || c.eq.None? || !Granted(answers, 8)
  {
    SetupDeath(answers);
  }

  /** When accept on a server ends the process. */
  ghost predicate AcceptDies(c: Conn, answers: seq<bool>) {
    || c.eq.None?
    || (c.pep.None? && (c.fab.None? || !Granted(answers, 3)))
    || (Answer(answers, PepAnswers(c)) && SetupDies(c, Skip(answers, PepAnswers(c) + 1), false))
  }

  /** In accept, after a passive endpoint was made sure of. */
  lemma {:induction false} AcceptDiesIff(c: Conn, c': Conn, answers: seq<bool>)
    requires c'.fab == c.fab && c'.eq == c.eq && c'.domain == c.domain && c'.ep == c.ep
    ensures var k := PepAnswers(c);
            AcceptDies(c, answers) <==>
              || c.eq.None? || (c.pep.None? && (c.fab.None? || !Granted(answers, 3)))
              || (Answer(Skip(answers, k), 0) && SetupDies(c', Skip(Skip(answers, k), 1), false))
  {
    AnswerLater(answers, PepAnswers(c), 0);
    SkipMore(answers, PepAnswers(c), 1);
  }

  /** accept survives if the seven answers up to those of setup_cqs are favourable. */
  lemma {:induction false} AcceptSurvives(c: Conn, answers: seq<bool>)
    requires c.fab.Some? && c.eq.Some? && Granted(answers, PepAnswers(c) + 7)
    ensures !AcceptDies(c, answers) && Answer(answers, PepAnswers(c))
  {
    var k := PepAnswers(c);
    GrantedSplits(answers, k, 7);
    GrantedSplits(Skip(answers, k), 1, 6);
    SkipMore(answers, k, 1);
    GrantedSplits(Skip(answers, k + 1), 2, 4);
    assert Answer(answers, k);
    assert Answer(Skip(answers, k + 1), 0) && Answer(Skip(answers, k + 1), 1);
  }

  /** When connect on a server ends the process. */
  ghost predicate ConnectDies(c: Conn, answers: seq<bool>) {
    || c.fab.None? || c.eq.None? || !Granted(answers, 3)
    || (Answer(answers, 3) && SetupDies(c, Skip(answers, 4), false))
  }

  // The answers that accept on a server in state c gets, in order: three for a passive
  // endpoint if it has none; the event; eight for the endpoint; fi_accept; the final wait.

  function PepAnswers(c: Conn): nat {
    if c.pep.None? then 3 else 0
  }

  /** The event is a connection request, and fi_accept does not fail. */
  predicate Serves(c: Conn, answers: seq<bool>) {
    Answer(answers, PepAnswers(c)) && Answer(answers, PepAnswers(c) + 9)
  }

  /** The event is a connection request, and a domain is opened for it. */
  predicate Renews(c: Conn, answers: seq<bool>) {
    Answer(answers, PepAnswers(c)) && Answer(answers, PepAnswers(c) + 1)
  }

  /** The answers used up before the hand-over. */
  function Used(c: Conn, answers: seq<bool>): nat {
    PepAnswers(c) + if Answer(answers, PepAnswers(c)) then 10 else 1
  }

  /** The server listens: with the passive endpoint it had, or with a new one on its fabric
      and bound to its event queue. */
  predicate Listening(objs: Objects, v: Conn, objs': Objects, v': Conn) {
    if v.pep.Some? then v'.pep == v.pep
    else New(objs, v'.pep) && On(objs', v'.pep, v'.fab) && On(objs', v'.pep, v'.eq)
  }

  /** What accept opened and bound on the way from v to v': if the event is no connection
      request, nothing but a passive endpoint. */
  predicate Outfitted(objs: Objects, v: Conn, answers: seq<bool>, objs': Objects, v': Conn) {
    var k := PepAnswers(v);
    && Listening(objs, v, objs', v')
    && (if Answer(answers, k) then Equipped(objs, v, objs', v', Skip(answers, k + 1)) else v' == v.(pep := v'.pep))
  }

  /** What the server and the new connection have together. */
  function Whole(v': Conn, w: Conn): Conn {
    if w.ep.None? then v' else v'.(domain := w.domain, ep := w.ep, rxCq := w.rxCq, txCq := w.txCq)
  }

  /** The endpoint is set up after the passive one, and nothing is closed meanwhile. */
  lemma {:induction false} OutfittedInTwo(o0: Objects, v0: Conn, o1: Objects, v1: Conn, o2: Objects, v2: Conn,
      answers: seq<bool>)
    requires Grows(o0, o1) && Grows(o1, o2) && Listening(o0, v0, o1, v1) && v1 == v0.(pep := v1.pep)
    requires v2.fab == v1.fab && v2.eq == v1.eq && v2.pep == v1.pep
    requires var a := Skip(answers, PepAnswers(v0));
             if Answer(a, 0) then Equipped(o1, v1, o2, v2, Skip(a, 1)) else v2 == v1
    ensures Outfitted(o0, v0, answers, o2, v2)
  {
    var k := PepAnswers(v0);
    AnswerLater(answers, k, 0);
    SkipMore(answers, k, 1);
  }

  // The answers that connect on a server gets: three for the passive endpoint, the event, eight
  // for the endpoint, fi_accept, and the final wait; on a client, fi_connect and the wait.

  function ConnectUsed(answers: seq<bool>): nat {
    if !Answer(answers, 3) then 4 else if !Answer(answers, 12) then 13 else 14
  }

  /** A passive endpoint on the fabric, bound to the event queue, was opened and closed again. */
  ghost predicate Listened(objs: Objects, objs': Objects, c: Conn) {
    exists p :: |objs| <= p < |objs'| && PepClosed(objs', c, p)
  }

  predicate PepClosed(objs: Objects, c: Conn, p: nat) {
    p < |objs| && objs[p].kind.Pep? && !objs[p].open && On(objs, Some(p), c.fab) && On(objs, Some(p), c.eq)
  }

  /** From the listening on, with the passive endpoint v.pep. */
  predicate Stopped(objs: Objects, v: Conn, answers: seq<bool>, objs': Objects, v': Conn, answers': seq<bool>)
    requires v.pep.Some? && v.pep.value < |objs|
  {
    && Grows(Closed(objs, v.pep.value), objs') && !objs'[v.pep.value].open
    && v'.pep.None? && v'.fab == v.fab && v'.eq == v.eq && v'.mrs == v.mrs
    && (if Answer(answers, 0) then Equipped(objs, v, objs', v', Skip(answers, 1)) && answers' == Skip(answers, 9)
        else v' == v.(pep := None) && answers' == Skip(answers, 1))
  }

  lemma {:induction false} StoppedAfterEvent(o0: Objects, v0: Conn, a0: seq<bool>, o1: Objects, v1: Conn, a1: seq<bool>)
    requires v0.pep.Some? && v0.pep.value < |o0| && Went(o0, a0, o1, a1, if Answer(a0, 0) then 9 else 1)
    requires v1.pep == v0.pep && v1.fab == v0.fab && v1.eq == v0.eq && v1.mrs == v0.mrs
    requires if Answer(a0, 0) then Equipped(o0, v0, o1, v1, Skip(a0, 1)) else v1 == v0
    ensures Stopped(o0, v0, a0, Closed(o1, v0.pep.value), v1.(pep := None), a1)
  {
    var o2 := Closed(o1, v0.pep.value);
    if Answer(a0, 0) {
      EquippedWider(o0, o0, v0, v0, o1, o2, v1, Skip(a0, 1));
    }
  }

  /** connect on a server up to fi_accept: a passive endpoint for the time of the call, and an
      endpoint if the event is a connection request. */
  ghost predicate Requested(objs: Objects, v: Conn, answers: seq<bool>, objs': Objects, v': Conn) {
    && Grows(objs, objs') && Listened(objs, objs', v')
    && v'.pep.None? && v'.fab == v.fab && v'.eq == v.eq && v'.mrs == v.mrs
    && (if Answer(answers, 3) then Equipped(objs, v, objs', v', Skip(answers, 4)) else v' == v.(pep := None))
  }

  lemma {:induction false} RequestedInTwo(o0: Objects, v0: Conn, o1: Objects, v1: Conn, o2: Objects, v2: Conn,
      answers: seq<bool>, answers': seq<bool>)
    requires Grows(o0, o1) && New(o0, v1.pep) && v1 == v0.(pep := v1.pep) && v1.pep.value < |o1|
    requires o1[v1.pep.value].kind.Pep? && On(o1, v1.pep, v1.fab) && On(o1, v1.pep, v1.eq)
    requires Stopped(o1, v1, Skip(answers, 3), o2, v2, answers')
    ensures Requested(o0, v0, answers, o2, v2)
    ensures answers' == Skip(answers, if Answer(answers, 3) then 12 else 4)
  {
    var p := v1.pep.value;
    AnswerLater(answers, 3, 0);
    SkipMore(answers, 3, 1);
    SkipMore(answers, 3, 9);
    assert PepClosed(o2, v2, p);
    forall i | 0 <= i < |o0| ensures Closed(o1, p)[i] == o1[i] {}
    if Answer(answers, 3) {
      EquippedWider(o0, o1, v0, v1, o2, o2, v2, Skip(answers, 4));
    }
  }

  /** When connect ends the process: on a connection that failed before, and where a check or
      a null handle ends it. */
  ghost predicate ConnectFatal(isServer: bool, failed: bool, v: Conn, answers: seq<bool>) {
    || failed
    || (if isServer then ConnectDies(v, answers) else v.ep.None? || (Answer(answers, 0) && v.eq.None?))
  }

  /** What connect otherwise does, and its result r.  A server gets an endpoint if the event is
      a connection request, and succeeds if also fi_accept does not fail and FI_CONNECTED
      follows; a client, which has an endpoint, only remembers a failed fi_connect. */
  ghost predicate Connected(isServer: bool, objs: Objects, v: Conn, answers: seq<bool>,
      objs': Objects, v': Conn, failed': bool, answers': seq<bool>, r: bool)
  {
    if isServer then
      && Requested(objs, v, answers, objs', v') && !failed' && answers' == Skip(answers, ConnectUsed(answers))
      && (r <==> Answer(answers, 3) && Answer(answers, 12) && Answer(answers, 13))
    else
      && objs' == objs && v' == v && failed' == !Answer(answers, 0)
      && answers' == Skip(answers, if Answer(answers, 0) then 2 else 1)
      && (r <==> Answer(answers, 0) && Answer(answers, 1))
  }

  /** What the constructors leave: a fabric with an event queue on it, and on a client, all of
      whose calls are checked, an endpoint with a domain and queues. */
  predicate Created(isServer: bool, objs: Objects, answers: seq<bool>, objs': Objects, v: Conn, answers': seq<bool>) {
    && Went(objs, answers, objs', answers', if isServer then 2 else 10)
    && New(objs, v.fab) && New(objs, v.eq) && On(objs', v.eq, v.fab) && v.pep.None? && v.mrs == Some(map[])
    && (if isServer then v.domain.None? && v.ep.None? && v.rxCq.None? && v.txCq.None?
        else Equipped(objs, NULL_CONN, objs', v, Skip(answers, 2)))
  }

  lemma {:induction false} CreatedInTwo(o0: Objects, a0: seq<bool>, o1: Objects, a1: seq<bool>, v1: Conn,
      o2: Objects, a2: seq<bool>, v2: Conn)
    requires Went(o0, a0, o1, a1, 2) && Went(o1, a1, o2, a2, 8)
    requires New(o0, v1.fab) && New(o0, v1.eq) && On(o1, v1.eq, v1.fab) && v1.domain.None? && v1.ep.None?
    requires v2.fab == v1.fab && v2.eq == v1.eq && v2.pep.None? && v2.mrs == Some(map[])
    requires Equipped(o1, v1, o2, v2, a1)
    ensures Created(false, o0, a0, o2, v2, a2)
  {
    EquippedWider(o0, o1, NULL_CONN, v1, o2, o2, v2, a1);
  }

  /** Up to the hand-over, accept took a server from v to v'; ok: it is to be handed over. */
  predicate Prepared(objs: Objects, v: Conn, answers: seq<bool>, objs': Objects, v': Conn,
      answers': seq<bool>, ok: bool) {
    && Owned(objs', v') && Local(objs, objs', Held(v), Held(v')) && Grows(objs, objs') && NoNewRegions(objs, objs')
    && ok == Serves(v, answers) && answers' == Skip(answers, Used(v, answers))
    && v'.fab == v.fab && v'.eq == v.eq && v'.mrs == v.mrs && v'.pep.Some? && v'.eq.Some?
    && (ok ==> v'.domain.Some? && v'.ep.Some? && v'.rxCq.Some? && v'.txCq.Some?)
    && Outfitted(objs, v, answers, objs', v')
  }

  /** accept took a server from v to v' and returned a connection w: both own their objects,
      share none, and have only what the server held or opened; nothing was closed, and the
      region table is as complete as before. */
  predicate Divided(objs: Objects, v: Conn, objs': Objects, v': Conn, w: Conn) {
    && Owned(objs', v') && Owned(objs', w) && Held(v') !! Held(w)
    && Local(objs, objs', Held(v), Held(v') + Held(w))
    && Grows(objs, objs') && NoNewRegions(objs, objs')
    && (TableOk(objs, v) ==> TableOk(objs', v'))
    && (w == NULL_CONN || HandsOver(v, v', w))
  }

  /** The result r of accept on a server, its connection w, and the answers left.  A failure
      before the hand-over gives false and a null connection.  After it the result says whether
      the connection was established, but w owns the endpoint in either case. */
  predicate Answered(objs: Objects, v: Conn, answers: seq<bool>, objs': Objects, v': Conn, answers': seq<bool>,
      r: bool, w: Conn)
  {
    && Outfitted(objs, v, answers, objs', Whole(v', w))
    && v'.fab == v.fab && v'.eq == v.eq && v'.mrs == v.mrs
    && (if Serves(v, answers) then
          HandsOver(v, v', w) && r == Answer(answers, PepAnswers(v) + 10) && answers' == Skip(answers, Used(v, answers) + 1)
        else
          && w == NULL_CONN && !r && answers' == Skip(answers, Used(v, answers))
          && (Renews(v, answers) ==> NewDomain(objs, objs', v')))
  }

  /** What accept does, if it returns; on a client, nothing. */
  predicate Accepted(isServer: bool, objs: Objects, v: Conn, answers: seq<bool>, objs': Objects, v': Conn,
      answers': seq<bool>, r: bool, w: Conn)
  {
    && Divided(objs, v, objs', v', w)
    && (if isServer then v'.pep.Some? && Answered(objs, v, answers, objs', v', answers', r, w)
        else v' == v && w == NULL_CONN && !r && objs' == objs && answers' == answers)
  }

  /** accept is documented as returning, if not successful, false and a null connection.  A
      false comes with a null connection if and only if the failure was before the hand-over. */
  lemma {:induction false} NullIffNotServed(objs: Objects, v: Conn, answers: seq<bool>,
      objs': Objects, v': Conn, answers': seq<bool>, r: bool, w: Conn)
    requires Answered(objs, v, answers, objs', v', answers', r, w)
    ensures w == NULL_CONN <==> !Serves(v, answers)
    ensures !r && w != NULL_CONN <==> Serves(v, answers) && !Answer(answers, PepAnswers(v) + 10)
  {
  }

  /** The hand-over, from a state with handles `whole`. */
  lemma {:induction false} HandOverDivides(objs: Objects, v: Conn, answers: seq<bool>, objs': Objects, whole: Conn,
      v': Conn, answers': seq<bool>, answers'': seq<bool>, r: bool, w: Conn)
    requires Prepared(objs, v, answers, objs', whole, answers', true)
    requires r == Answer(answers', 0) && answers'' == Skip(answers', 1)
    requires v' == whole.(domain := None, ep := None, rxCq := None, txCq := None)
    requires w == NULL_CONN.(domain := whole.domain, ep := whole.ep, rxCq := whole.rxCq, txCq := whole.txCq)
    ensures Divided(objs, v, objs', v', w)
    ensures Keeps(objs, objs', Held(v), Held(whole)) ==> Keeps(objs, objs', Held(v), Held(v') + Held(w))
    ensures Answered(objs, v, answers, objs', v', answers'', r, w)
  {
    AnswerLater(answers, PepAnswers(v) + 10, 0);
    SkipMore(answers, PepAnswers(v) + 10, 1);
    assert Whole(v', w) == whole;
    HandOverSplits(objs', whole, v', w);
    LocalSplit(objs, objs', Held(v), Held(whole), Held(v'), Held(w));
  }

  lemma {:induction false} NullDivides(objs: Objects, v: Conn, objs': Objects, v': Conn)
    requires Ordered(objs) && Owned(objs, v) && Owned(objs', v') && Local(objs, objs', Held(v), Held(v'))
    requires Grows(objs, objs') && NoNewRegions(objs, objs') && v'.mrs == v.mrs
    ensures Divided(objs, v, objs', v', NULL_CONN)
    ensures Keeps(objs, objs', Held(v), Held(v')) ==> Keeps(objs, objs', Held(v), Held(v') + Held(NULL_CONN))
  {
    NullOwnsNothing(objs');
    LocalSplit(objs, objs', Held(v), Held(v'), Held(v'), Held(NULL_CONN));
    if TableOk(objs, v) && v'.domain.Some? && v'.mrs.Some? {
      SetupKeepsComplete(objs, objs', v, v');
    }
  }
}
