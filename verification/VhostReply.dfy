/** The reply rule of the vhost-user backend channel: two parties that decide separately, one
    whether to wait for a reply and one whether to send it. */
module VhostReply {
  import opened Options

  /** A well-formed backend request. `answer` is the value the frontend's handler will give. */
  datatype Req = Req(shmem: bool, code: nat, answer: nat)

  datatype Reply = Reply(code: nat, value: nat)

  /** Whether each side believes the reply-ack protocol feature to be negotiated. */
  datatype Flags = Flags(backend: bool, frontend: bool)

  /** wait_for_reply */
  predicate Waits(f: Flags, r: Req) {
    !(!r.shmem && !f.backend)
  }

  /** send_reply. The backend sets need-reply when it has negotiated reply-ack. */
  predicate Replies(f: Flags, r: Req) {
    r.shmem || (f.frontend && f.backend)
  }

  /** The two streams, what the backend is doing, and what its finished calls returned. */
  datatype State = State(sent: nat, waiting: bool, wire: seq<Req>, replies: seq<Reply>, results: seq<Option<nat>>)

  datatype Event = Send | Handle | Receive

  const INIT := State(0, false, [], [], [])

  predicate Enabled(reqs: seq<Req>, s: State, e: Event) {
    match e
    case Send => !s.waiting && s.sent < |reqs|
    case Handle => s.wire != []
    case Receive => s.waiting && s.replies != [] && 0 < s.sent <= |reqs|
  }

  function Apply(f: Flags, reqs: seq<Req>, s: State, e: Event): State
    requires Enabled(reqs, s, e)
  {
    match e
    case Send =>
      var r := reqs[s.sent];
      var t := s.(sent := s.sent + 1, wire := s.wire + [r]);
      if Waits(f, r) then t.(waiting := true) else t.(results := t.results + [None])
    case Handle =>
      var r := s.wire[0];
      var t := s.(wire := s.wire[1..]);
      if Replies(f, r) then t.(replies := t.replies + [Reply(r.code, r.answer)]) else t
    case Receive =>
      // A reply to another request is an error.
      var r := s.replies[0];
      s.(waiting := false, replies := s.replies[1..],
         results := s.results + [if r.code == reqs[s.sent - 1].code then Some(r.value) else None])
  }

  /** The states of a run, in order. */
  ghost predicate IsRun(f: Flags, reqs: seq<Req>, run: seq<State>) {
    && |run| > 0 && run[0] == INIT
    && forall i :: 0 <= i < |run| - 1 ==> Steps(f, reqs, run[i], run[i + 1])
  }

  ghost predicate Steps(f: Flags, reqs: seq<Req>, s: State, t: State) {
    exists e :: Enabled(reqs, s, e) && Apply(f, reqs, s, e) == t
  }

  predicate Finished(reqs: seq<Req>, s: State) {
    s.sent == |reqs| && !s.waiting && s.wire == []
  }

  /** The sides agree about a request when it is waited for exactly if it is answered. */
  predicate Agree(f: Flags, r: Req) {
    Waits(f, r) <==> Replies(f, r)
  }

  /** The requests under way that no reply will follow. */
  ghost predicate Silent(f: Flags, wire: seq<Req>, n: int) {
    forall i :: 0 <= i < n <= |wire| ==> !Replies(f, wire[i])
  }

  /** What is under way is the tail of what was sent. */
  ghost predicate WireOk(reqs: seq<Req>, s: State) {
    && |s.wire| <= s.sent <= |reqs|
    && forall i :: 0 <= i < |s.wire| ==> s.wire[i] == reqs[s.sent - |s.wire| + i]
  }

  ghost predicate ResultsOk(f: Flags, reqs: seq<Req>, results: seq<Option<nat>>) {
    && |results| <= |reqs|
    && forall i :: 0 <= i < |results| ==>
         && Agree(f, reqs[i])
         && results[i] == if Waits(f, reqs[i]) then Some(reqs[i].answer) else None
  }

  ghost predicate Inv(f: Flags, reqs: seq<Req>, s: State) {
    && ResultsOk(f, reqs, s.results)
    && |s.results| + (if s.waiting then 1 else 0) == s.sent
    && WireOk(reqs, s)
    && (!s.waiting ==> s.replies == [] && Silent(f, s.wire, |s.wire|))
    && (s.waiting ==>
          var r := reqs[s.sent - 1];
          && Waits(f, r)
          && (if s.wire == [] then s.replies == (if Agree(f, r) then [Reply(r.code, r.answer)] else [])
              else s.replies == [] && Silent(f, s.wire, |s.wire| - 1)))
  }

  lemma KeepHandle(f: Flags, reqs: seq<Req>, s: State)
    requires Inv(f, reqs, s) && s.wire != []
    ensures Inv(f, reqs, Apply(f, reqs, s, Handle))
  {
    var t := Apply(f, reqs, s, Handle);
    assert s.wire[0] == reqs[s.sent - |s.wire|];
    assert WireOk(reqs, t);
    assert !s.waiting || |s.wire| > 1 ==> !Replies(f, s.wire[0]);
    assert Silent(f, t.wire, |t.wire| - 1);
  }

  lemma Keep(f: Flags, reqs: seq<Req>, s: State, e: Event)
    requires Inv(f, reqs, s) && Enabled(reqs, s, e)
    ensures Inv(f, reqs, Apply(f, reqs, s, e))
  {
    match e
    case Send => assert WireOk(reqs, Apply(f, reqs, s, e));
    case Handle => KeepHandle(f, reqs, s);
    case Receive =>
  }

  lemma {:induction false} RunInv(f: Flags, reqs: seq<Req>, run: seq<State>, k: nat)
    requires IsRun(f, reqs, run) && k < |run|
    ensures Inv(f, reqs, run[k])
  {
    if k > 0 {
      RunInv(f, reqs, run, k - 1);
      assert Steps(f, reqs, run[k - 1], run[k - 1 + 1]);
      var e :| Enabled(reqs, run[k - 1], e) && Apply(f, reqs, run[k - 1], e) == run[k];
      Keep(f, reqs, run[k - 1], e);
    }
  }

  /** Lockstep: in every reachable state every finished call that waited got the answer to its own
      request, and no reply is left unread by a backend that is not waiting. */
  lemma Lockstep(f: Flags, reqs: seq<Req>, run: seq<State>, k: nat)
    requires IsRun(f, reqs, run) && k < |run|
    ensures ResultsOk(f, reqs, run[k].results)
    ensures !run[k].waiting ==> run[k].replies == [] && |run[k].results| == run[k].sent
    ensures |run[k].replies| <= 1
  {
    RunInv(f, reqs, run, k);
  }

  /** In every reachable state a finished call has got the answer to its own request exactly if it
      is a shared memory request or the backend has negotiated reply-ack; other calls got nothing. */
  lemma Answered(f: Flags, reqs: seq<Req>, run: seq<State>, k: nat)
    requires IsRun(f, reqs, run) && k < |run|
    ensures var results := run[k].results;
            && |results| <= |reqs|
            && forall i :: 0 <= i < |results| ==>
                 results[i] == if reqs[i].shmem || f.backend then Some(reqs[i].answer) else None
  {
    RunInv(f, reqs, run, k);
  }

  /** A request that the frontend takes off the stream is answered exactly if it is a shared memory
      request or both sides have negotiated reply-ack; and the backend waits for the answer, without
      a result, exactly if it is a shared memory request or the backend has negotiated it. */
  lemma StepsAnswer(f: Flags, reqs: seq<Req>, run: seq<State>, k: nat)
    requires IsRun(f, reqs, run) && k + 1 < |run|
    ensures var s, t := run[k], run[k + 1];
            && (|t.wire| < |s.wire| ==>
                  var r := s.wire[0];
                  t.replies == if r.shmem || (f.frontend && f.backend) then s.replies + [Reply(r.code, r.answer)]
                               else s.replies)
            && (t.sent > s.sent ==>
                  && s.sent < |reqs| && t.wire == s.wire + [reqs[s.sent]]
                  && (t.waiting <==> reqs[s.sent].shmem || f.backend))
  {
    assert Steps(f, reqs, run[k], run[k + 1]);
    RunInv(f, reqs, run, k);
  }

  /** A reachable state is stuck exactly when the backend waits for a reply that the frontend has
      decided not to send. */
  lemma StuckIff(f: Flags, reqs: seq<Req>, run: seq<State>, k: nat)
    requires IsRun(f, reqs, run) && k < |run|
    ensures var s := run[k];
            (forall e :: !Enabled(reqs, s, e)) && !Finished(reqs, s) <==>
            s.waiting && s.wire == [] && s.sent > 0 && s.sent <= |reqs| && !Agree(f, reqs[s.sent - 1])
  {
    RunInv(f, reqs, run, k);
    var s := run[k];
    if s.waiting && s.wire == [] && Agree(f, reqs[s.sent - 1]) {
      assert Enabled(reqs, s, Receive);
    }
    if !s.waiting && s.wire == [] && s.sent < |reqs| {
      assert Enabled(reqs, s, Send);
    }
    if s.wire != [] {
      assert Enabled(reqs, s, Handle);
    }
  }

  function Work(reqs: seq<Req>, s: State): int {
    3 * (|reqs| - s.sent) + |s.wire| + (if s.waiting then 1 else 0)
  }

  lemma StepWorks(f: Flags, reqs: seq<Req>, s: State, e: Event)
    requires Inv(f, reqs, s) && Enabled(reqs, s, e)
    ensures 0 <= Work(reqs, Apply(f, reqs, s, e)) < Work(reqs, s)
  {
  }

  /** Without a disagreement any run can be carried on to the end. */
  lemma {:induction false} CarryOn(f: Flags, reqs: seq<Req>, run: seq<State>) returns (full: seq<State>)
    requires IsRun(f, reqs, run)
    requires forall i :: 0 <= i < |reqs| ==> Agree(f, reqs[i])
    ensures IsRun(f, reqs, full) && Finished(reqs, full[|full| - 1])
    decreases Work(reqs, run[|run| - 1])
  {
    var s := run[|run| - 1];
    RunInv(f, reqs, run, |run| - 1);
    if Finished(reqs, s) {
      full := run;
    } else {
      StuckIff(f, reqs, run, |run| - 1);
      var e :| Enabled(reqs, s, e);
      StepWorks(f, reqs, s, e);
      var t := Apply(f, reqs, s, e);
      assert Steps(f, reqs, s, t);
      full := CarryOn(f, reqs, run + [t]);
    }
  }

  /** All requests can be served exactly when the sides agree about each of them. */
  lemma ServedIff(f: Flags, reqs: seq<Req>)
    ensures (exists run :: IsRun(f, reqs, run) && Finished(reqs, run[|run| - 1]))
       <==> (f.backend && !f.frontend ==> forall i :: 0 <= i < |reqs| ==> reqs[i].shmem)
  {
    if exists run :: IsRun(f, reqs, run) && Finished(reqs, run[|run| - 1]) {
      var run :| IsRun(f, reqs, run) && Finished(reqs, run[|run| - 1]);
      RunInv(f, reqs, run, |run| - 1);
    }
    if f.backend && !f.frontend ==> forall i :: 0 <= i < |reqs| ==> reqs[i].shmem {
      assert IsRun(f, reqs, [INIT]);
      var full := CarryOn(f, reqs, [INIT]);
    }
  }
}
