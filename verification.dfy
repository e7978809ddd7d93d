/** The one-time-passcode check of `verify_otp` as functions on the store,
    and what follows from running it repeatedly against one record. */
module OtpVerification {
  import opened Risk
  import opened Records

  /** The reply of one verification: the id is unknown, a status is
      reported, or the code was wrong and this many attempts are left. */
  datatype VerifyReply = NotFound | Reported(status: Status) | WrongOtp(attemptsLeft: int)

  /** A record after one verification, with the reply. */
  datatype Step = Step(record: Record, reply: VerifyReply)

  /** The store after one verification, with the reply. */
  datatype Outcome = Outcome(store: map<Id, Record>, reply: VerifyReply)

  /** The store after a series of verifications, with every reply in order. */
  datatype Run = Run(store: map<Id, Record>, replies: seq<VerifyReply>)

  predicate Pending(r: Record)
  {
    r.status == OtpPending
  }

  /** One verification of a found record against a submitted code. The
      checks run in order: not pending, attempts used up, wrong code,
      otherwise approve. */
  function VerifyRecord(r: Record, submitted: int): (s: Step)
    requires WellFormed(r)
    ensures WellFormed(s.record)
    // Only the status and the attempt counter can change.
    ensures s.record.transaction == r.transaction
    ensures s.record.fraudProbability == r.fraudProbability && s.record.risk == r.risk
    ensures s.record.challenge.Some? <==> r.challenge.Some?
    ensures r.challenge.Some? ==> s.record.challenge.value.otp == r.challenge.value.otp
    // A record that is not pending is reported verbatim and left alone.
    ensures !Pending(r) ==> s.record == r && s.reply == Reported(r.status)
    // Status moves only from pending to one of the two outcomes of the challenge.
    ensures s.record.status == r.status || (Pending(r) && s.record.status in {Approved, Blocked})
    // Blocking happens exactly when a pending record has used all its attempts,
    // whatever the code.
    ensures Pending(r) ==>
              (s.record.status == Blocked <==> r.challenge.value.attempts >= MaxAttempts)
    // A wrong code is counted exactly when attempts remain and the code differs.
    ensures s.reply.WrongOtp? <==>
              Pending(r) && r.challenge.value.attempts < MaxAttempts
              && submitted != r.challenge.value.otp
    ensures s.reply.WrongOtp? ==>
              && Pending(s.record)
              && s.record.challenge.value.attempts == r.challenge.value.attempts + 1
              && s.reply.attemptsLeft == MaxAttempts - s.record.challenge.value.attempts
              && s.reply.attemptsLeft >= 0
    // Any other reply reports the stored status, and the counter is untouched.
    ensures !s.reply.WrongOtp? ==> s.reply == Reported(s.record.status)
    ensures !s.reply.WrongOtp? && r.challenge.Some? ==>
              s.record.challenge == r.challenge
    // Approval needs the stored code, and the stored code with attempts left
    // approves, changing nothing but the status.
    ensures Pending(r) && s.record.status == Approved ==> submitted == r.challenge.value.otp
    ensures Pending(r) && r.challenge.value.attempts < MaxAttempts
            && submitted == r.challenge.value.otp ==>
              s.record == r.(status := Approved) && s.reply == Reported(Approved)
  {
    if r.status != OtpPending then
      Step(r, Reported(r.status))
    else
      var c := r.challenge.value;
      if c.attempts >= MaxAttempts then
        Step(r.(status := Blocked), Reported(Blocked))
      else if c.otp != submitted then
        var used := c.attempts + 1;
        Step(r.(challenge := Some(c.(attempts := used))), WrongOtp(MaxAttempts - used))
      else
        Step(r.(status := Approved), Reported(Approved))
  }

  /** `verify_otp` on the whole store: an unknown id is reported and nothing
      changes; otherwise only the record under that id is updated. */
  function Verify(store: map<Id, Record>, id: Id, submitted: int): (o: Outcome)
    requires ValidStore(store)
    ensures ValidStore(o.store)
    ensures o.store.Keys == store.Keys
    ensures o.reply == NotFound <==> id !in store
    ensures id !in store ==> o.store == store
    ensures forall k :: k in store && k != id ==> o.store[k] == store[k]
    ensures id in store ==> Step(o.store[id], o.reply) == VerifyRecord(store[id], submitted)
  {
    if id !in store then
      Outcome(store, NotFound)
    else
      var s := VerifyRecord(store[id], submitted);
      Outcome(store[id := s.record], s.reply)
  }

  /** Submits the codes one after another for the same id. */
  function VerifyAll(store: map<Id, Record>, id: Id, codes: seq<int>): (run: Run)
    requires ValidStore(store)
    ensures ValidStore(run.store)
    ensures run.store.Keys == store.Keys
    ensures |run.replies| == |codes|
    ensures forall k :: k in store && k != id ==> run.store[k] == store[k]
    decreases |codes|
  {
    if codes == [] then
      Run(store, [])
    else
      var o := Verify(store, id, codes[0]);
      var rest := VerifyAll(o.store, id, codes[1..]);
      Run(rest.store, [o.reply] + rest.replies)
  }

  /** The number of wrong-code replies in a series. */
  function CountWrong(replies: seq<VerifyReply>): nat
  {
    if replies == [] then 0
    else (if replies[0].WrongOtp? then 1 else 0) + CountWrong(replies[1..])
  }

  /** A pending record that has used all its attempts is blocked whatever
      code is submitted. */
  lemma BlockedWhateverCode(r: Record, a: int, b: int)
    requires WellFormed(r) && Pending(r)
    requires r.challenge.value.attempts >= MaxAttempts
    ensures VerifyRecord(r, a) == VerifyRecord(r, b)
    ensures VerifyRecord(r, a).record == r.(status := Blocked)
    ensures VerifyRecord(r, a).reply == Reported(Blocked)
  {
  }

  /** The stored code, submitted while attempts remain, approves the record
      and changes nothing else in it. */
  lemma CorrectCodeApproves(r: Record)
    requires WellFormed(r) && Pending(r)
    requires r.challenge.value.attempts < MaxAttempts
    ensures VerifyRecord(r, r.challenge.value.otp) == Step(r.(status := Approved), Reported(Approved))
  {
  }

  /** Once a record is not pending (approved, blocked, open, cleared), any
      number of verifications leave the store as it is and report that
      status every time: a terminal record never returns to pending. */
  lemma {:induction false} NotPendingIsStable(store: map<Id, Record>, id: Id, codes: seq<int>)
    requires ValidStore(store) && id in store && !Pending(store[id])
    ensures VerifyAll(store, id, codes).store == store
    ensures forall i :: 0 <= i < |codes| ==>
              VerifyAll(store, id, codes).replies[i] == Reported(store[id].status)
  {
    if codes != [] {
      var o := Verify(store, id, codes[0]);
      assert o.store == store;
      NotPendingIsStable(store, id, codes[1..]);
    }
  }

  /** Every wrong-code reply in a series is one more stored failed attempt:
      the counter grows by exactly the number of such replies. */
  lemma {:induction false} WrongRepliesAreCounted(store: map<Id, Record>, id: Id, codes: seq<int>)
    requires ValidStore(store) && id in store && store[id].challenge.Some?
    ensures VerifyAll(store, id, codes).store[id].challenge.Some?
    ensures CountWrong(VerifyAll(store, id, codes).replies)
            == VerifyAll(store, id, codes).store[id].challenge.value.attempts
               - store[id].challenge.value.attempts
  {
    if codes != [] {
      var o := Verify(store, id, codes[0]);
      var rest := VerifyAll(o.store, id, codes[1..]);
      WrongRepliesAreCounted(o.store, id, codes[1..]);
      assert VerifyAll(store, id, codes).replies == [o.reply] + rest.replies;
      assert ([o.reply] + rest.replies)[1..] == rest.replies;
    }
  }

  /** However many codes are submitted, a record with a challenge answers
      with a wrong-code reply at most as often as it has attempts left; a
      freshly challenged record tolerates at most three wrong guesses. */
  lemma AtMostThreeWrongGuesses(store: map<Id, Record>, id: Id, codes: seq<int>)
    requires ValidStore(store) && id in store && store[id].challenge.Some?
    ensures CountWrong(VerifyAll(store, id, codes).replies)
            <= MaxAttempts - store[id].challenge.value.attempts
  {
    WrongRepliesAreCounted(store, id, codes);
    var final := VerifyAll(store, id, codes).store;
    assert WellFormed(final[id]);
  }

  /** From a fresh challenge, three wrong codes report 2, 1 and 0 attempts
      left and the fourth submission, whatever its code, blocks the record. */
  lemma ThreeStrikes(store: map<Id, Record>, id: Id, w1: int, w2: int, w3: int, fourth: int)
    requires ValidStore(store) && id in store && Pending(store[id])
    requires store[id].challenge.Some? && store[id].challenge.value.attempts == 0
    requires w1 != store[id].challenge.value.otp
    requires w2 != store[id].challenge.value.otp
    requires w3 != store[id].challenge.value.otp
    ensures var o1 := Verify(store, id, w1);
            var o2 := Verify(o1.store, id, w2);
            var o3 := Verify(o2.store, id, w3);
            var o4 := Verify(o3.store, id, fourth);
            && [o1.reply, o2.reply, o3.reply, o4.reply]
               == [WrongOtp(2), WrongOtp(1), WrongOtp(0), Reported(Blocked)]
            && o4.store[id].status == Blocked
  {
    var o1 := Verify(store, id, w1);
    WrongCodeStep(store, id, w1);
    var o2 := Verify(o1.store, id, w2);
    WrongCodeStep(o1.store, id, w2);
    var o3 := Verify(o2.store, id, w3);
    WrongCodeStep(o2.store, id, w3);
    BlockedWhateverCode(o3.store[id], fourth, fourth);
  }

  /** One wrong code on a pending record with attempts left: the counter
      goes up by one, the code stays, and the reply says how many remain. */
  lemma WrongCodeStep(store: map<Id, Record>, id: Id, w: int)
    requires ValidStore(store) && id in store && Pending(store[id])
    requires store[id].challenge.Some? && store[id].challenge.value.attempts < MaxAttempts
    requires w != store[id].challenge.value.otp
    ensures var o := Verify(store, id, w);
            && ValidStore(o.store) && id in o.store && Pending(o.store[id])
            && o.store[id].challenge.Some?
            && o.store[id].challenge.value.otp == store[id].challenge.value.otp
            && o.store[id].challenge.value.attempts == store[id].challenge.value.attempts + 1
            && o.reply == WrongOtp(MaxAttempts - o.store[id].challenge.value.attempts)
  {
  }
}
