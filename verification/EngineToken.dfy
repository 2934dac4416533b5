/** Presenting the storage engine's token (pkg/kubelet/src/engine.rs): the node token is
    cached, read again on a refusal, waited for at boot, and followed by the admin token for
    what the node token is refused. Calls run one after another. */
module EngineToken {
  import opened Common

  const UNAUTHORIZED: nat := 401

  datatype Answer = Failed | Status(code: nat) {
    predicate Refused() { this == Status(UNAUTHORIZED) }
    /** An answer, and not a 401. */
    predicate Accepted() { Status? && code != UNAUTHORIZED }
  }

  type Token = Option<string>

  type Positive = n: nat | n > 0 witness 1

  /** What one call meets, as it unfolds: the token files at its n-th read, the answer to its
      n-th request, how many polls fit in a wait, and the admin token when it is read. */
  datatype World = World(file: nat -> Token, answers: nat -> Answer, polls: Positive, admin: Token)

  datatype State = State(token: Token, accepted: bool, gaveUpOn: Option<Token>, saidNone: bool, saidNoAdmin: bool)

  /** One request: the credential presented, whether it is the admin token, and the answer. */
  datatype Sending = Sending(credential: Token, isAdmin: bool, answer: Answer)

  /** A call: the state it left, its requests in order, how often it waited (after the first
      request, before any other), what it gave up on, and what it answered. */
  datatype Outcome = Outcome(state: State, sent: seq<Sending>, waits: nat, gaveUp: Option<Token>, answer: Answer)

  // ---------------------------------------------------------------- one call, as a function

  datatype Found = Found(state: State, token: Token, waits: nat, gaveUp: Option<Token>)

  function PollFrom(s: State, used: Token, w: World, from: nat, k: nat): Found
    requires k <= w.polls
    decreases w.polls - k
  {
    if k == w.polls then Found(s.(gaveUpOn := Some(used)), used, 0, Some(used))
    else
      var now := w.file(from + k);
      var s' := s.(token := now);
      if now.Some? && now != used then Found(s', now, 1, None)
      else
        var rest := PollFrom(s', used, w, from, k + 1);
        rest.(waits := 1 + rest.waits)
  }

  function Await(s: State, used: Token, w: World, from: nat): Found {
    if s.accepted || s.gaveUpOn == Some(used) then Found(s, used, 0, None) else PollFrom(s, used, w, from, 0)
  }

  function ReadIfNone(s: State, w: World): State {
    if s.token.Some? then s
    else s.(token := w.file(0), saidNone := if w.file(0).Some? then false else s.saidNone)
  }

  function ReadsIfNone(s: State): nat { if s.token.Some? then 0 else 1 }

  /** The node token to go on with after a 401 to `used`: the files read again, and waited on
      if they still say the same. */
  function Renewed(s: State, used: Token, w: World, n: nat): Found {
    var s' := s.(token := w.file(n));
    if w.file(n) == used then Await(s', used, w, n + 1) else Found(s', w.file(n), 0, None)
  }

  /** The end of a call still refused after the node token's re-read. */
  function Escalate(o: Outcome, token: Token, isGet: bool, w: World): Outcome {
    if token.None? then o.(state := o.state.(saidNone := true))
    else if isGet then o
    else if w.admin.None? then o.(state := o.state.(saidNoAdmin := true))
    else if w.admin == token then o
    else
      var a := w.answers(|o.sent|);
      o.(state := o.state.(saidNoAdmin := false), sent := o.sent + [Sending(w.admin, true, a)], answer := a)
  }

  function Retry(o: Outcome, used: Token, token: Token, isGet: bool, w: World): Outcome {
    if token.Some? && token != used then
      var a := w.answers(1);
      var o' := o.(sent := o.sent + [Sending(token, false, a)], answer := a);
      if a.Failed? then o'
      else if a.Accepted() then o'.(state := o'.state.(accepted := true))
      else Escalate(o', token, isGet, w)
    else Escalate(o, token, isGet, w)
  }

  function Call(s: State, isGet: bool, w: World): Outcome {
    var s1 := ReadIfNone(s, w);
    var used, a := s1.token, w.answers(0);
    var sent := [Sending(used, false, a)];
    if a.Failed? then Outcome(s1, sent, 0, None, a)
    else if a.Accepted() then Outcome(s1.(accepted := true), sent, 0, None, a)
    else
      var found := Renewed(s1, used, w, ReadsIfNone(s));
      Retry(Outcome(found.state, sent, found.waits, found.gaveUp, a), used, found.token, isGet, w)
  }

  // ---------------------------------------------------------------- the client

  class EngineClient {
    var token: Token
    var accepted: bool
    var gaveUpOn: Option<Token>
    var saidNone: bool
    var saidNoAdmin: bool

    function View(): State
      reads this
    {
      State(token, accepted, gaveUpOn, saidNone, saidNoAdmin)
    }

    constructor ()
      ensures View() == FRESH
    {
      token, accepted, gaveUpOn, saidNone, saidNoAdmin := None, false, None, false, false;
    }

    /** The cached token, or a fresh read while there is none. */
    method CurrentToken(w: World) returns (t: Token, n: nat)
      modifies this
      ensures View() == ReadIfNone(old(View()), w) && t == token && n == ReadsIfNone(old(View()))
    {
      n := 0;
      if token.None? {
        token := w.file(0);
        n := 1;
        if token.Some? { saidNone := false; }
      }
      t := token;
    }

    method AwaitNewToken(used: Token, w: World, from: nat) returns (t: Token, waits: nat, gaveUp: Option<Token>)
      modifies this
      ensures Found(View(), t, waits, gaveUp) == Await(old(View()), used, w, from)
    {
      if accepted || gaveUpOn == Some(used) { return used, 0, None; }
      waits := 0;
      ghost var all := PollFrom(View(), used, w, from, 0);
      while waits < w.polls
        invariant waits <= w.polls
        invariant var rest := PollFrom(View(), used, w, from, waits); rest.(waits := waits + rest.waits) == all
      {
        token := w.file(from + waits);
        waits := waits + 1;
        if token.Some? && token != used { return token, waits, None; }
      }
      gaveUpOn := Some(used);
      return used, waits, Some(used);
    }

    /** The end of a call still refused: the admin token, for what the node token is refused. */
    method PresentAdmin(isGet: bool, w: World, renewed: Token, refusal: Answer, before: seq<Sending>,
                        ghost o: Outcome)
      returns (answer: Answer, sent: seq<Sending>)
      requires o.state == View() && o.sent == before && o.answer == refusal
      modifies this
      ensures o.(state := View(), sent := sent, answer := answer) == Escalate(o, renewed, isGet, w)
    {
      answer, sent := refusal, before;
      if renewed.None? {
        saidNone := true;
        return;
      }
      if isGet { return; }
      if w.admin.None? {
        saidNoAdmin := true;
        return;
      }
      if w.admin != renewed {
        saidNoAdmin := false;
        answer := w.answers(|sent|);
        sent := sent + [Sending(w.admin, true, answer)];
      }
    }

    /** On a 401: the token now on disk, if it is another, then what follows its refusal. */
    method PresentRenewed(isGet: bool, w: World, used: Token, renewed: Token, refusal: Answer, before: seq<Sending>,
                           ghost o: Outcome)
      returns (answer: Answer, sent: seq<Sending>)
      requires o.state == View() && o.sent == before && o.answer == refusal
      modifies this
      ensures o.(state := View(), sent := sent, answer := answer) == Retry(o, used, renewed, isGet, w)
    {
      answer, sent := refusal, before;
      ghost var o' := o;
      if renewed.Some? && renewed != used {
        answer := w.answers(1);
        sent := sent + [Sending(renewed, false, answer)];
        if answer.Failed? { return; }
        if answer.code != UNAUTHORIZED {
          accepted := true;
          return;
        }
        o' := o.(sent := sent, answer := answer);
      }
      answer, sent := PresentAdmin(isGet, w, renewed, answer, sent, o');
    }

    method SendAuthorised(isGet: bool, w: World)
      returns (answer: Answer, sent: seq<Sending>, waits: nat, gaveUp: Option<Token>)
      modifies this
      ensures Outcome(View(), sent, waits, gaveUp, answer) == Call(old(View()), isGet, w)
    {
      waits, gaveUp := 0, None;
      var used, n := CurrentToken(w);
      ghost var s1 := View();
      answer := w.answers(0);
      sent := [Sending(used, false, answer)];
      if answer.Failed? { return; }
      if answer.code != UNAUTHORIZED {
        accepted := true;
        return;
      }
      token := w.file(n);
      var renewed := token;
      if renewed == used {
        renewed, waits, gaveUp := AwaitNewToken(used, w, n + 1);
      }
      assert Found(View(), renewed, waits, gaveUp) == Renewed(s1, used, w, n);
      answer, sent := PresentRenewed(isGet, w, used, renewed, answer, sent,
                                     Outcome(View(), sent, waits, gaveUp, answer));
    }
  }

  // ---------------------------------------------------------------- what one call does

  lemma {:induction false} PollsOnly(s: State, used: Token, w: World, from: nat, k: nat)
    requires k <= w.polls
    ensures var f := PollFrom(s, used, w, from, k);
            && (k < w.polls ==> f.waits > 0)
            && f.state.accepted == s.accepted
            && (f.gaveUp.Some? <==> f.token == used)
            && (f.gaveUp.Some? ==> f.gaveUp == Some(used))
            && f.state.gaveUpOn == (if f.gaveUp.Some? then f.gaveUp else s.gaveUpOn)
            && (f.token == used || f.token.Some?)
    decreases w.polls - k
  {
    if k < w.polls {
      PollsOnly(s.(token := w.file(from + k)), used, w, from, k + 1);
    }
  }

  /** A renewal waits exactly if the files still say `used`, no token was accepted yet and the
      last give-up was for another token; it gives up only on `used`, having waited. */
  lemma RenewalWaits(s: State, used: Token, w: World, n: nat)
    ensures var f := Renewed(s, used, w, n);
            && (f.waits > 0 <==> w.file(n) == used && !s.accepted && s.gaveUpOn != Some(used))
            && (f.gaveUp.Some? ==> f.gaveUp == Some(used) && s.gaveUpOn != Some(used))
            && f.state.gaveUpOn == (if f.gaveUp.Some? then f.gaveUp else s.gaveUpOn)
            && f.state.accepted == s.accepted
            && (f.token == used ==> w.file(n) == used)
  {
    PollsOnly(s.(token := w.file(n)), used, w, n + 1, 0);
  }

  lemma RetryKeepsWaits(o: Outcome, used: Token, token: Token, isGet: bool, w: World)
    ensures var r := Retry(o, used, token, isGet, w);
            r.waits == o.waits && r.gaveUp == o.gaveUp && r.state.gaveUpOn == o.state.gaveUpOn
  {
  }

  /** A call waits exactly if its token was refused, the files still say the same, no token was
      accepted yet and the last give-up was for another token. */
  lemma CallWaits(s: State, isGet: bool, w: World)
    ensures var o := Call(s, isGet, w); var used := ReadIfNone(s, w).token;
            && (o.waits > 0 <==> w.answers(0).Refused() && w.file(ReadsIfNone(s)) == used
                                 && !s.accepted && s.gaveUpOn != Some(used))
            && (o.gaveUp.Some? ==> s.gaveUpOn != o.gaveUp)
            && o.state.gaveUpOn == (if o.gaveUp.Some? then o.gaveUp else s.gaveUpOn)
  {
    var s1, a := ReadIfNone(s, w), w.answers(0);
    if a.Refused() {
      var f := Renewed(s1, s1.token, w, ReadsIfNone(s));
      RenewalWaits(s1, s1.token, w, ReadsIfNone(s));
      RetryKeepsWaits(Outcome(f.state, [Sending(s1.token, false, a)], f.waits, f.gaveUp, a), s1.token, f.token, isGet,
                      w);
    }
  }

  /** `b` may be sent right after `a` in one call: `a` carried the node token and was refused,
      and `b` carries another credential, the admin token only if `a` did carry a token and the
      call is no GET. */
  ghost predicate MayFollow(a: Sending, b: Sending, isGet: bool) {
    && !a.isAdmin && a.answer.Refused()
    && b.credential.Some? && b.credential != a.credential
    && (b.isAdmin ==> !isGet && a.credential.Some?)
  }

  lemma EscalateFollows(o: Outcome, token: Token, isGet: bool, w: World)
    requires |o.sent| > 0
    requires var last := o.sent[|o.sent| - 1];
             !last.isAdmin && last.answer == o.answer && o.answer.Refused() && last.credential == token
    ensures var r := Escalate(o, token, isGet, w);
            || (r.sent == o.sent && r.answer == o.answer)
            || (r.sent == o.sent + [Sending(w.admin, true, r.answer)]
                && MayFollow(o.sent[|o.sent| - 1], Sending(w.admin, true, r.answer), isGet))
  {
  }

  lemma EscalateKeepsAccepted(o: Outcome, token: Token, isGet: bool, w: World)
    ensures Escalate(o, token, isGet, w).state.accepted == o.state.accepted
  {
  }

  /** The requests of a call and what they tell about acceptance. */
  ghost predicate Proper(sent: seq<Sending>, used: Token, isGet: bool) {
    && 1 <= |sent| <= 3
    && sent[0].credential == used && !sent[0].isAdmin
    && (|sent| > 1 ==> MayFollow(sent[0], sent[1], isGet))
    && (|sent| > 2 ==> MayFollow(sent[1], sent[2], isGet) && sent[2].isAdmin)
  }

  lemma RetryFollows(o: Outcome, used: Token, token: Token, isGet: bool, w: World)
    requires o.sent == [Sending(used, false, o.answer)] && o.answer.Refused()
    ensures var r := Retry(o, used, token, isGet, w);
            && Proper(r.sent, used, isGet)
            && r.answer == r.sent[|r.sent| - 1].answer
            && (r.state.accepted
                <==> o.state.accepted || (|r.sent| > 1 && !r.sent[1].isAdmin && r.sent[1].answer.Accepted()))
  {
    if token.Some? && token != used {
      var a := w.answers(1);
      var o' := o.(sent := o.sent + [Sending(token, false, a)], answer := a);
      assert MayFollow(o.sent[0], Sending(token, false, a), isGet);
      if a.Refused() {
        EscalateFollows(o', token, isGet, w);
        EscalateKeepsAccepted(o', token, isGet, w);
      }
    } else {
      EscalateKeepsAccepted(o, token, isGet, w);
      if token == used { EscalateFollows(o, token, isGet, w); }
    }
  }

  /** A call sends one to three requests and answers what the last was answered: first the
      token in use, then at most a newer node token, then at most the admin token, each only
      on a refusal of the one before. Acceptance is recorded for the node token's answers. */
  lemma RequestsOfACall(s: State, isGet: bool, w: World)
    ensures var o := Call(s, isGet, w);
            && Proper(o.sent, ReadIfNone(s, w).token, isGet)
            && o.answer == o.sent[|o.sent| - 1].answer
            && (o.state.accepted <==> s.accepted || NodeTokenAccepted(o))
  {
    var s1, a := ReadIfNone(s, w), w.answers(0);
    if a.Refused() {
      var f := Renewed(s1, s1.token, w, ReadsIfNone(s));
      RenewalWaits(s1, s1.token, w, ReadsIfNone(s));
      RetryFollows(Outcome(f.state, [Sending(s1.token, false, a)], f.waits, f.gaveUp, a), s1.token, f.token, isGet,
                      w);
    } else {
      assert Call(s, isGet, w).sent[0].answer == a;
    }
  }

  // ---------------------------------------------------------------- which credentials a call presents

  predicate IsNew(t: Token, used: Token) { t.Some? && t != used }

  /** The i-th read of the token files finds a token that makes a poll stop. */
  predicate NewAt(w: World, i: nat, used: Token) { IsNew(w.file(i), used) }

  /** A 401 to `used`, the files having been read `n` times: `now` is what they say, or the first new
      token they say at one of up to `polls` further reads, or `used` when none does. They are read
      further only if they still say `used`, nothing was accepted yet and no wait for it was in vain. */
  ghost predicate RenewsTo(s: State, used: Token, w: World, n: nat, now: Token, waits: nat) {
    var waited := w.file(n) == used && !s.accepted && s.gaveUpOn != Some(used);
    if !waited then waits == 0 && now == w.file(n)
    else
      && 1 <= waits <= w.polls
      && (forall i: nat :: n < i < n + waits ==> !NewAt(w, i, used))
      && if NewAt(w, n + waits, used) then now == w.file(n + waits) else waits == w.polls && now == used
  }

  lemma {:induction false} PollsUntilNew(s: State, used: Token, w: World, from: nat, k: nat)
    requires k <= w.polls
    ensures var f := PollFrom(s, used, w, from, k); var end := from + k + f.waits;
            && k + f.waits <= w.polls
            && (forall i: nat :: from + k <= i < end - 1 ==> !NewAt(w, i, used))
            && (if f.gaveUp.None? then f.waits > 0 && NewAt(w, end - 1, used) && f.token == w.file(end - 1)
                else k + f.waits == w.polls && f.token == used && (f.waits > 0 ==> !NewAt(w, end - 1, used)))
            && f.state.token == (if f.waits == 0 then s.token else w.file(end - 1))
            && f.state.saidNone == s.saidNone && f.state.saidNoAdmin == s.saidNoAdmin
    decreases w.polls - k
  {
    if k < w.polls && !NewAt(w, from + k, used) {
      PollsUntilNew(s.(token := w.file(from + k)), used, w, from, k + 1);
    }
  }

  lemma RenewedExactly(s: State, used: Token, w: World, n: nat)
    ensures var f := Renewed(s, used, w, n);
            && RenewsTo(s, used, w, n, f.token, f.waits)
            && f.state.token == w.file(n + f.waits)
            && (f.gaveUp.Some? <==> f.waits > 0 && f.token == used)
            && f.state.saidNone == s.saidNone && f.state.saidNoAdmin == s.saidNoAdmin
  {
    PollsUntilNew(s.(token := w.file(n)), used, w, n + 1, 0);
  }

  const REFUSAL: Answer := Status(401)

  /** The requests of a call: the token in use; if that was refused, the node token the renewal led
      to, if that is another; if the last of these was refused, the admin token, for a call that is no
      GET and presents a node token, unless that is the same. */
  ghost predicate Presents(sent: seq<Sending>, used: Token, now: Token, isGet: bool, w: World) {
    var again := w.answers(0) == REFUSAL && IsNew(now, used);
    var n := if again then 2 else 1;
    var last := now.Some? && w.answers(n - 1) == REFUSAL && w.answers(0) == REFUSAL
                && !isGet && w.admin.Some? && w.admin != now;
    && |sent| == (if last then n + 1 else n)
    && (forall i :: 0 <= i < |sent| ==> sent[i].answer == w.answers(i) && (sent[i].isAdmin <==> i == n))
    && sent[0].credential == used
    && (again ==> sent[1].credential == now)
    && (last ==> sent[n].credential == w.admin)
  }

  lemma RetryPresents(o: Outcome, used: Token, token: Token, isGet: bool, w: World)
    requires w.answers(0).Refused() && o.sent == [Sending(used, false, w.answers(0))] && o.answer == w.answers(0)
    ensures var r := Retry(o, used, token, isGet, w);
            && Presents(r.sent, used, token, isGet, w)
            && r.answer == w.answers(|r.sent| - 1)
            && r.state.token == o.state.token
            && (r.state.accepted <==> o.state.accepted || (IsNew(token, used) && w.answers(1).Accepted()))
  {
    if IsNew(token, used) {
      var sent := o.sent + [Sending(token, false, w.answers(1))];
      assert sent[0] == o.sent[0] && |sent| == 2;
    }
  }

  /** A call whose first request is refused goes on from the renewal. */
  lemma CallRetries(s: State, isGet: bool, w: World) returns (f: Found, o: Outcome)
    requires w.answers(0).Refused()
    ensures var used, n := if s.token.Some? then s.token else w.file(0), if s.token.Some? then 0 else 1;
            && Call(s, isGet, w) == Retry(o, used, f.token, isGet, w)
            && o == Outcome(f.state, [Sending(used, false, w.answers(0))], f.waits, f.gaveUp, w.answers(0))
            && RenewsTo(s, used, w, n, f.token, f.waits)
            && f.state.token == w.file(n + f.waits) && f.state.accepted == s.accepted
            && (f.gaveUp.Some? <==> f.waits > 0 && f.token == used)
            && (f.state.saidNone <==> s.saidNone && !(s.token.None? && w.file(0).Some?))
            && f.state.saidNoAdmin == s.saidNoAdmin
  {
    var s1, n := ReadIfNone(s, w), ReadsIfNone(s);
    RenewedExactly(s1, s1.token, w, n);
    RenewalWaits(s1, s1.token, w, n);
    f := Renewed(s1, s1.token, w, n);
    o := Outcome(f.state, [Sending(s1.token, false, w.answers(0))], f.waits, f.gaveUp, w.answers(0));
  }

  /** Exactly what a call presents and leaves: the cached token or, without one, the file's; after a
      401 what the renewal led to; and then the admin token. It caches the last value it read, and
      records as accepted a node token answered by anything but a 401. */
  lemma CallExactly(s: State, isGet: bool, w: World) returns (now: Token)
    ensures var o := Call(s, isGet, w);
            var used, n := if s.token.Some? then s.token else w.file(0), if s.token.Some? then 0 else 1;
            && Presents(o.sent, used, now, isGet, w)
            && o.answer == w.answers(|o.sent| - 1)
            && (if w.answers(0) == REFUSAL then
                  && RenewsTo(s, used, w, n, now, o.waits)
                  && o.state.token == w.file(n + o.waits)
                  && (o.gaveUp.Some? <==> o.waits > 0 && now == used)
                else now == used && o.waits == 0 && o.gaveUp == None && o.state.token == used)
            && (o.state.accepted
                <==> s.accepted || w.answers(0).Accepted()
                     || (w.answers(0) == REFUSAL && IsNew(now, used) && w.answers(1).Accepted()))
  {
    if w.answers(0).Refused() {
      var f, o := CallRetries(s, isGet, w);
      now := f.token;
      RetryPresents(o, o.sent[0].credential, now, isGet, w);
      RetryKeepsWaits(o, o.sent[0].credential, now, isGet, w);
    } else {
      now := ReadIfNone(s, w).token;
    }
  }

  lemma RetrySays(o: Outcome, used: Token, token: Token, isGet: bool, w: World)
    requires o.sent == [Sending(used, false, w.answers(0))]
    ensures var r := Retry(o, used, token, isGet, w);
            var needed := token.Some? && !isGet && (IsNew(token, used) ==> w.answers(1).Refused());
            && (r.state.saidNone <==> token.None? || o.state.saidNone)
            && (r.state.saidNoAdmin
                <==> if needed && w.admin.None? then true
                     else if needed && w.admin != token then false
                     else o.state.saidNoAdmin)
  {
  }

  /** What is said once: that there is no token, each time a refused call ends without one until a read
      finds one; that there is no admin token, when a refused call needs it, until it is presented. */
  lemma SaysExactly(s: State, isGet: bool, w: World) returns (now: Token)
    ensures var o := Call(s, isGet, w);
            var used, n := if s.token.Some? then s.token else w.file(0), if s.token.Some? then 0 else 1;
            var found := s.token.None? && w.file(0).Some?;
            var needed := w.answers(0) == REFUSAL && now.Some? && !isGet
                          && (IsNew(now, used) ==> w.answers(1) == REFUSAL);
            && (w.answers(0) == REFUSAL ==> RenewsTo(s, used, w, n, now, o.waits))
            && (o.state.saidNone <==> (w.answers(0) == REFUSAL && now.None?) || (s.saidNone && !found))
            && (o.state.saidNoAdmin
                <==> if needed && w.admin.None? then true
                     else if needed && w.admin != now then false
                     else s.saidNoAdmin)
  {
    now := ReadIfNone(s, w).token;
    if w.answers(0).Refused() {
      var f, o := CallRetries(s, isGet, w);
      now := f.token;
      RetryKeepsWaits(o, o.sent[0].credential, now, isGet, w);
      RetrySays(o, o.sent[0].credential, now, isGet, w);
    }
  }

  /** Nothing is cached, accepted, given up on or said at the start. */
  lemma FreshIsBlank()
    ensures FRESH.token == None && !FRESH.accepted && FRESH.gaveUpOn == None && !FRESH.saidNone && !FRESH.saidNoAdmin
  {
  }

  /** The admin token is presented on no GET; on another call only last, and after a node token was
      refused. For an admin token that is neither the cached token nor ever in a token file. */
  lemma AdminTokenIsKept(s: State, isGet: bool, w: World, i: nat)
    requires w.admin.Some? && w.admin != s.token && forall n: nat :: w.file(n) != w.admin
    requires i < |Call(s, isGet, w).sent| && Call(s, isGet, w).sent[i].credential == w.admin
    ensures var sent := Call(s, isGet, w).sent;
            && !isGet && i > 0 && i == |sent| - 1
            && sent[i - 1].credential.Some? && sent[i - 1].answer == Status(401)
            && exists n: nat :: sent[i - 1].credential == s.token || sent[i - 1].credential == w.file(n)
  {
    var now := CallExactly(s, isGet, w);
    var o, n := Call(s, isGet, w), if s.token.Some? then 0 else 1;
    assert now == w.file(n + o.waits) || now == s.token || now == w.file(0) || now == w.file(n);
    var sent := o.sent;
    assert i == (if |sent| == 3 then 2 else 1);
    assert sent[i - 1].credential == now;
  }

  // ---------------------------------------------------------------- runs of calls

  datatype Request = Request(isGet: bool, world: World)

  const FRESH: State := State(None, false, None, false, false)

  /** The calls of a run that starts from `s`, in order. */
  ghost function Calls(s: State, run: seq<Request>): (calls: seq<Outcome>)
    ensures |calls| == |run|
    decreases |run|
  {
    if run == [] then []
    else
      var o := Call(s, run[0].isGet, run[0].world);
      [o] + Calls(o.state, run[1..])
  }

  ghost function After(s: State, run: seq<Request>): State
    decreases |run|
  {
    if run == [] then s else After(Call(s, run[0].isGet, run[0].world).state, run[1..])
  }

  /** The engine answered a request that carried the node token, or none, and not with a 401. */
  ghost predicate NodeTokenAccepted(o: Outcome) {
    exists i :: 0 <= i < |o.sent| && !o.sent[i].isAdmin && o.sent[i].answer.Accepted()
  }

  lemma {:induction false} AcceptedMeansNodeToken(s: State, run: seq<Request>)
    ensures After(s, run).accepted <==> s.accepted || exists o :: o in Calls(s, run) && NodeTokenAccepted(o)
    decreases |run|
  {
    if run != [] {
      var o := Call(s, run[0].isGet, run[0].world);
      RequestsOfACall(s, run[0].isGet, run[0].world);
      AcceptedMeansNodeToken(o.state, run[1..]);
      assert forall p :: p in Calls(s, run) <==> p == o || p in Calls(o.state, run[1..]);
    }
  }

  /** A next call can be made to wait. */
  ghost predicate CanWait(s: State) {
    exists isGet, w :: Call(s, isGet, w).waits > 0
  }

  lemma CanWaitExactly(s: State)
    ensures CanWait(s) <==> !s.accepted && (s.token.None? || s.gaveUpOn != Some(s.token))
  {
    if CanWait(s) {
      var isGet, w :| Call(s, isGet, w).waits > 0;
      CallWaits(s, isGet, w);
    }
    if !s.accepted && (s.token.None? || s.gaveUpOn != Some(s.token)) {
      var t := if s.token.Some? then s.token else if s.gaveUpOn == Some(Some("a")) then Some("b") else Some("a");
      var w := World(_ => t, _ => Status(UNAUTHORIZED), 1, None);
      CallWaits(s, true, w);
      assert Call(s, true, w).waits > 0;
    }
  }

  /** Once a request with the node token was answered by anything but a 401, no call waits;
      before that, the next call can wait unless its token is the one last given up on. */
  lemma NextCallCanWait(run: seq<Request>)
    ensures var s := After(FRESH, run);
            CanWait(s) <==> !(exists o :: o in Calls(FRESH, run) && NodeTokenAccepted(o))
                            && (s.token.None? || s.gaveUpOn != Some(s.token))
  {
    AcceptedMeansNodeToken(FRESH, run);
    CanWaitExactly(After(FRESH, run));
  }

  lemma AdminAnswers(w: World)
    requires w.file(0).Some? && w.file(1).Some? && w.admin.Some? && w.file(0) != w.file(1) && w.admin != w.file(1)
    requires w.answers(0).Refused() && w.answers(1).Refused()
    ensures var o := Call(FRESH, false, w);
            o.answer == w.answers(2) && !o.state.accepted && o.state.gaveUpOn == None
  {
    var s1 := ReadIfNone(FRESH, w);
    assert Renewed(s1, s1.token, w, 1) == Found(s1.(token := w.file(1)), w.file(1), 0, None);
  }

  lemma AfterOne(s: State, r: Request)
    ensures After(s, [r]) == Call(s, r.isGet, r.world).state
    ensures Calls(s, [r])[0] == Call(s, r.isGet, r.world)
  {
    assert [r][1..] == [];
  }

  const TOKENS: seq<string> := ["1", "22", "333"]

  /** The token file is renewed once, and the engine takes the admin token only. */
  function AdminOnly(): World {
    World((n: nat) => if n == 0 then Some(TOKENS[0]) else Some(TOKENS[1]),
          (n: nat) => if n == 2 then Status(200) else Status(UNAUTHORIZED), 1, Some(TOKENS[2]))
  }

  lemma AdminOnlyIsCaseInPoint()
    ensures var w := AdminOnly();
      && w.file(0).Some? && w.file(1).Some? && w.admin.Some? && w.file(0) != w.file(1) && w.admin != w.file(1)
      && w.answers(0).Refused() && w.answers(1).Refused() && w.answers(2) == Status(200)
  {
    assert |TOKENS[0]| < |TOKENS[1]| < |TOKENS[2]|;
  }

  /** The admin token's answers do not count, though the field's description says any answer
      but a 401 does: here the engine accepts the admin token, and the next call can wait. */
  lemma AdminAcceptanceIsNotRecorded()
    ensures exists run: seq<Request> ::
              |run| == 1 && Calls(FRESH, run)[0].answer == Status(200) && CanWait(After(FRESH, run))
  {
    var w := AdminOnly();
    AdminOnlyIsCaseInPoint();
    AdminAnswers(w);
    AfterOne(FRESH, Request(false, w));
    CanWaitExactly(After(FRESH, [Request(false, w)]));
  }

  /** What the calls of a run gave up on, in order. */
  ghost function GiveUps(calls: seq<Outcome>): seq<Token>
    decreases |calls|
  {
    if calls == [] then []
    else (if calls[0].gaveUp.Some? then [calls[0].gaveUp.value] else []) + GiveUps(calls[1..])
  }

  lemma {:induction false} GiveUpsFollow(s: State, run: seq<Request>)
    ensures var g := GiveUps(Calls(s, run));
            && (g != [] ==> Some(g[0]) != s.gaveUpOn)
            && forall i :: 0 < i < |g| ==> g[i - 1] != g[i]
    decreases |run|
  {
    if run != [] {
      var o := Call(s, run[0].isGet, run[0].world);
      CallWaits(s, run[0].isGet, run[0].world);
      GiveUpsFollow(o.state, run[1..]);
      assert Calls(s, run)[1..] == Calls(o.state, run[1..]);
      var rest := GiveUps(Calls(o.state, run[1..]));
      if o.gaveUp.Some? {
        var g := [o.gaveUp.value] + rest;
        forall i | 0 < i < |g| ensures g[i - 1] != g[i] {
          if i > 1 { assert g[i - 1] == rest[i - 2] && g[i] == rest[i - 1]; }
        }
      } else {
        assert [] + rest == rest;
      }
    }
  }

  /** Two consecutive give-ups of a run are never for the same token. */
  lemma ConsecutiveGiveUpsDiffer(run: seq<Request>)
    ensures var g := GiveUps(Calls(FRESH, run)); forall i :: 0 < i < |g| ==> g[i - 1] != g[i]
  {
    GiveUpsFollow(FRESH, run);
  }
}
