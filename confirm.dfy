/** `apps.common.confirm.require_confirm` and the signing context it runs
    in. The user is a sequence of answers (true accepts, false rejects);
    the device keeps a log of what it shows and does. */
module Confirm {
  import opened Messages
  import opened Ui
  import opened Wire

  /** What the device does during one signing call. */
  datatype Event =
    | DeriveNode(path: seq<uint32>)
    | Show(prompt: Text)
    | Serialize
    | Hash
    | Sign

  /** The context of one signing call: the answers the user has still to
      give and the events so far. Running out of answers counts as a cancel. */
  datatype Session = Session(answers: seq<bool>, log: seq<Event>)

  function Drop<T>(s: seq<T>, n: nat): seq<T>
  {
    if n <= |s| then s[n..] else []
  }

  /** The log entries for showing `prompts` in order. */
  function Shows(prompts: seq<Text>): seq<Event>
  {
    seq(|prompts|, i requires 0 <= i < |prompts| => Show(prompts[i]))
  }

  /** `require_confirm(ctx, text, ...)`: show the prompt and take one answer;
      anything but an acceptance raises `ActionCancelled`. */
  function RequireConfirm(s: Session, p: Text): (Session, Outcome)
  {
    var s' := Session(Drop(s.answers, 1), s.log + [Show(p)]);
    if |s.answers| > 0 && s.answers[0] then (s', Pass) else (s', Fail(ActionCancelled))
  }

  /** The user accepts each of the first `m` prompts. */
  predicate AcceptsFirst(answers: seq<bool>, m: nat)
  {
    m <= |answers| && forall i :: 0 <= i < m ==> answers[i]
  }

  /** Whether the user rejects prompt `i`: a `false` answer or none at all. */
  predicate RejectsAt(answers: seq<bool>, i: nat)
  {
    i >= |answers| || !answers[i]
  }

  /** Index of the first of the first `n` prompts the user does not accept,
      or `n` when the user accepts all of them. */
  function FirstReject(answers: seq<bool>, n: nat): (k: nat)
    ensures k <= n
  {
    if n == 0 then 0
    else if FirstReject(answers, n - 1) < n - 1 then FirstReject(answers, n - 1)
    else if n - 1 < |answers| && answers[n - 1] then n
    else n - 1
  }

  /** Every prompt before the first rejection is accepted, and the one at it
      (when it is among the first `n`) is not. */
  lemma {:induction false} FirstRejectSpec(answers: seq<bool>, n: nat)
    ensures AcceptsFirst(answers, FirstReject(answers, n))
    ensures FirstReject(answers, n) < n ==> RejectsAt(answers, FirstReject(answers, n))
  {
    if n > 0 {
      FirstRejectSpec(answers, n - 1);
    }
  }

  /** The first rejection is determined by those two facts. */
  lemma FirstRejectUnique(answers: seq<bool>, n: nat, m: nat)
    requires m <= n && AcceptsFirst(answers, m)
    requires m < n ==> RejectsAt(answers, m)
    ensures FirstReject(answers, n) == m
  {
    FirstRejectSpec(answers, n);
    var k := FirstReject(answers, n);
    assert k >= m;
    assert k <= m;
  }

  /** After an acceptance, the first rejection is one prompt further on. */
  lemma FirstRejectTail(answers: seq<bool>, n: nat)
    requires n > 0 && |answers| > 0 && answers[0]
    ensures FirstReject(answers, n) == FirstReject(answers[1..], n - 1) + 1
  {
    var tail := answers[1..];
    var j := FirstReject(tail, n - 1);
    FirstRejectSpec(tail, n - 1);
    assert forall i :: 0 <= i < |tail| ==> tail[i] == answers[i + 1];
    assert AcceptsFirst(answers, j + 1);
    FirstRejectUnique(answers, n, j + 1);
  }

  /** A run of prompts, in closed form: prompts are shown up to and including
      the first rejected one, one answer is used per prompt shown, and the run
      passes only when every prompt was accepted. */
  function ConfirmAll(s: Session, prompts: seq<Text>): (Session, Outcome)
  {
    var k := FirstReject(s.answers, |prompts|);
    var shown := if k < |prompts| then k + 1 else |prompts|;
    (Session(Drop(s.answers, shown), s.log + Shows(prompts[..shown])),
     if k < |prompts| then Fail(ActionCancelled) else Pass)
  }

  /** A run of prompts step by step: one `require_confirm` after the other,
      the first one that raises ending the run. */
  function ConfirmEach(s: Session, prompts: seq<Text>): (Session, Outcome)
    decreases |prompts|
  {
    if prompts == [] then (s, Pass)
    else
      var r := RequireConfirm(s, prompts[0]);
      if r.1.Fail? then r else ConfirmEach(r.0, prompts[1..])
  }

  lemma ShowsAppend(a: seq<Text>, b: seq<Text>)
    ensures Shows(a + b) == Shows(a) + Shows(b)
  {
    assert |Shows(a + b)| == |Shows(a) + Shows(b)|;
    forall i | 0 <= i < |a| + |b| ensures Shows(a + b)[i] == (Shows(a) + Shows(b))[i] {
      if i >= |a| { assert (a + b)[i] == b[i - |a|]; }
    }
  }

  /** After an accepted first prompt, the run goes on with the rest. */
  lemma ConfirmAllStep(s: Session, prompts: seq<Text>)
    requires prompts != [] && |s.answers| > 0 && s.answers[0]
    ensures ConfirmAll(s, prompts) ==
            ConfirmAll(Session(s.answers[1..], s.log + [Show(prompts[0])]), prompts[1..])
  {
    var rest := prompts[1..];
    var s1 := Session(s.answers[1..], s.log + [Show(prompts[0])]);
    var k := FirstReject(s1.answers, |rest|);
    FirstRejectTail(s.answers, |prompts|);
    var shown := if k < |rest| then k + 1 else |rest|;
    assert prompts[..shown + 1] == [prompts[0]] + rest[..shown];
    ShowsAppend([prompts[0]], rest[..shown]);
    assert Shows([prompts[0]]) == [Show(prompts[0])];
    assert Drop(s1.answers, shown) == Drop(s.answers, shown + 1);
    assert s.log + Shows(prompts[..shown + 1]) == s1.log + Shows(rest[..shown]);
    var k0 := FirstReject(s.answers, |prompts|);
    assert k0 == k + 1;
    assert (if k0 < |prompts| then k0 + 1 else |prompts|) == shown + 1;
  }

  /** The step-by-step run has the closed form. */
  lemma {:induction false} ConfirmEachIsConfirmAll(s: Session, prompts: seq<Text>)
    ensures ConfirmEach(s, prompts) == ConfirmAll(s, prompts)
    decreases |prompts|
  {
    if prompts != [] {
      var r := RequireConfirm(s, prompts[0]);
      if r.1.Fail? {
        FirstRejectUnique(s.answers, |prompts|, 0);
        assert prompts[..1] == [prompts[0]];
        assert Shows(prompts[..1]) == [Show(prompts[0])];
      } else {
        assert r.0 == Session(s.answers[1..], s.log + [Show(prompts[0])]);
        assert ConfirmEach(s, prompts) == ConfirmEach(r.0, prompts[1..]);
        ConfirmEachIsConfirmAll(r.0, prompts[1..]);
        ConfirmAllStep(s, prompts);
      }
    } else {
      assert Shows(prompts[..0]) == [] && s.log + [] == s.log;
    }
  }

  /** A single prompt is a run of one. */
  lemma RequireConfirmIsRunOfOne(s: Session, p: Text)
    ensures RequireConfirm(s, p) == ConfirmAll(s, [p])
  {
    assert ConfirmEach(RequireConfirm(s, p).0, []) == (RequireConfirm(s, p).0, Pass);
    ConfirmEachIsConfirmAll(s, [p]);
  }

  lemma {:induction false} ConfirmEachAppend(s: Session, a: seq<Text>, b: seq<Text>)
    ensures ConfirmEach(s, a + b) ==
            (var r := ConfirmEach(s, a); if r.1.Fail? then r else ConfirmEach(r.0, b))
    decreases |a|
  {
    if a == [] {
      assert a + b == b;
    } else {
      assert (a + b)[0] == a[0] && (a + b)[1..] == a[1..] + b;
      var r := RequireConfirm(s, a[0]);
      if r.1.Pass? {
        ConfirmEachAppend(r.0, a[1..], b);
      }
    }
  }

  /** Two runs back to back are one run of all their prompts: the second
      starts only when the first passed. */
  lemma ConfirmAllAppend(s: Session, a: seq<Text>, b: seq<Text>)
    ensures ConfirmAll(s, a + b) ==
            (var r := ConfirmAll(s, a); if r.1.Fail? then r else ConfirmAll(r.0, b))
  {
    ConfirmEachAppend(s, a, b);
    ConfirmEachIsConfirmAll(s, a + b);
    ConfirmEachIsConfirmAll(s, a);
    ConfirmEachIsConfirmAll(ConfirmAll(s, a).0, b);
  }

  /** Early stop: when the user accepts the first k prompts and rejects
      prompt k (counting from 0), exactly k + 1 prompts are shown, none after,
      and the run raises `ActionCancelled`. */
  lemma RejectStopsRun(s: Session, prompts: seq<Text>, k: nat)
    requires k < |prompts| && k < |s.answers| && !s.answers[k]
    requires forall i :: 0 <= i < k ==> s.answers[i]
    ensures ConfirmAll(s, prompts) ==
            (Session(s.answers[k + 1..], s.log + Shows(prompts[..k + 1])), Fail(ActionCancelled))
  {
    FirstRejectUnique(s.answers, |prompts|, k);
  }

  /** A run passes exactly when the user accepts every prompt, and then all
      of them are shown, in order. */
  lemma AcceptAllRun(s: Session, prompts: seq<Text>)
    ensures ConfirmAll(s, prompts).1 == Pass <==>
            |prompts| <= |s.answers| && forall i :: 0 <= i < |prompts| ==> s.answers[i]
    ensures ConfirmAll(s, prompts).1 == Pass ==>
            ConfirmAll(s, prompts).0 == Session(s.answers[|prompts|..], s.log + Shows(prompts))
  {
    var k := FirstReject(s.answers, |prompts|);
    FirstRejectSpec(s.answers, |prompts|);
    if k < |prompts| {
      assert !(k < |s.answers| && s.answers[k]);
    } else {
      if |prompts| > 0 { assert |prompts| - 1 < |s.answers|; }
      assert prompts[..|prompts|] == prompts;
    }
  }

  /** One step of a run: with the first `idx` prompts accepted, showing
      prompt `idx` either ends the run as the closed form says (a rejection)
      or extends the accepted prefix by one. */
  lemma RequireConfirmStep(s: Session, prompts: seq<Text>, idx: nat, s': Session)
    requires idx < |prompts| && AcceptsFirst(s.answers, idx)
    requires s' == Session(s.answers[idx..], s.log + Shows(prompts[..idx]))
    ensures RequireConfirm(s', prompts[idx]).1.Fail? ==>
            RequireConfirm(s', prompts[idx]) == ConfirmAll(s, prompts)
    ensures RequireConfirm(s', prompts[idx]).1.Pass? ==>
            && AcceptsFirst(s.answers, idx + 1)
            && RequireConfirm(s', prompts[idx]).0 ==
               Session(s.answers[idx + 1..], s.log + Shows(prompts[..idx + 1]))
  {
    var r := RequireConfirm(s', prompts[idx]);
    ShowsAppend(prompts[..idx], [prompts[idx]]);
    assert prompts[..idx] + [prompts[idx]] == prompts[..idx + 1];
    assert Shows([prompts[idx]]) == [Show(prompts[idx])];
    assert r.0.log == s.log + Shows(prompts[..idx + 1]);
    if r.1.Fail? {
      assert RejectsAt(s.answers, idx);
      FirstRejectUnique(s.answers, |prompts|, idx);
      assert Drop(s.answers[idx..], 1) == Drop(s.answers, idx + 1);
    } else {
      assert s.answers[idx..][1..] == s.answers[idx + 1..];
    }
  }

  /** A run whose every prompt was accepted passes and has shown them all. */
  lemma ConfirmAllAccepted(s: Session, prompts: seq<Text>)
    requires AcceptsFirst(s.answers, |prompts|)
    ensures ConfirmAll(s, prompts) == (Session(s.answers[|prompts|..], s.log + Shows(prompts)), Pass)
  {
    FirstRejectUnique(s.answers, |prompts|, |prompts|);
    assert prompts[..|prompts|] == prompts;
  }
}
