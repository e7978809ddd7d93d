/** The three request handlers that write to the `transactions` collection,
    over a store object whose map field plays the collection. */
module FraudApi {
  import opened Risk
  import opened Records
  import opened OtpVerification

  /** Reply of the check flow: the probability and its tier. */
  datatype CheckReply = CheckReply(fraudProbability: real, risk: Tier)

  /** Reply of the initiate flow: approved outright (LOW), or a challenge
      with the new record's id and its code. */
  datatype InitiateReply =
    | Approval(risk: Tier)
    | OtpRequired(risk: Tier, transactionId: Id, otp: int)

  class TransactionStore {
    var records: map<Id, Record>

    ghost predicate Valid()
      reads this
    {
      ValidStore(records)
    }

    constructor ()
      ensures Valid() && records == map[]
    {
      records := map[];
    }

    /** `check_transaction`: tiers the probability, stores an OPEN or
        CLEARED record under a fresh id and replies with probability and
        tier. `prob` is the classifier's output; `id` the generated id. */
    method CheckTransaction(transaction: Features, prob: real, id: Id) returns (reply: CheckReply)
      requires Valid()
      requires 0.0 <= prob <= 1.0
      requires id !in records
      modifies this
      ensures Valid()
      ensures reply == CheckReply(prob, Classify(prob))
      ensures records == old(records)[id := CheckRecord(transaction, prob)]
      ensures records[id].status == (if reply.risk == High then Open else Cleared)
    {
      var risk := Classify(prob);
      records := records[id := CheckRecord(transaction, prob)];
      reply := CheckReply(prob, risk);
    }

    /** `initiate_transaction`: a LOW transaction is stored APPROVED and
        answered as such; any other is stored pending with the code and
        answered with its id and the code. `code` is the random draw. */
    method InitiateTransaction(transaction: Features, prob: real, id: Id, code: int)
      returns (reply: InitiateReply)
      requires Valid()
      requires 0.0 <= prob <= 1.0
      requires IsCode(code)
      requires id !in records
      modifies this
      ensures Valid()
      ensures reply.risk == Classify(prob)
      ensures reply.Approval? <==> Classify(prob) == Low
      ensures reply.OtpRequired? ==> reply.transactionId == id && reply.otp == code
      ensures records == old(records)[id := InitiateRecord(transaction, prob, code)]
      ensures reply.Approval? ==> records[id].status == Approved && records[id].challenge == None
      ensures reply.OtpRequired? ==>
                records[id].status == OtpPending && records[id].challenge == Some(Challenge(code, 0))
    {
      var risk := Classify(prob);
      records := records[id := InitiateRecord(transaction, prob, code)];
      if risk == Low {
        reply := Approval(risk);
        return;
      }
      reply := OtpRequired(risk, id, code);
    }

    /** `verify_otp`: the checks run in order and the first that applies
        answers; only the record under `id` can change. */
    method VerifyOtp(id: Id, submitted: int) returns (reply: VerifyReply)
      requires Valid()
      modifies this
      ensures Valid()
      ensures Outcome(records, reply) == Verify(old(records), id, submitted)
      ensures id !in old(records) ==> reply == NotFound && records == old(records)
      ensures id in old(records) && !Pending(old(records)[id]) ==>
                reply == Reported(old(records)[id].status) && records == old(records)
      ensures id in old(records) && Pending(old(records)[id])
              && old(records)[id].challenge.value.attempts >= MaxAttempts ==>
                reply == Reported(Blocked)
                && records == old(records)[id := old(records)[id].(status := Blocked)]
      ensures id in old(records) && Pending(old(records)[id])
              && old(records)[id].challenge.value.attempts < MaxAttempts
              && old(records)[id].challenge.value.otp != submitted ==>
                var c := old(records)[id].challenge.value;
                && reply == WrongOtp(MaxAttempts - (c.attempts + 1))
                && records == old(records)[id := old(records)[id].(challenge := Some(c.(attempts := c.attempts + 1)))]
      ensures id in old(records) && Pending(old(records)[id])
              && old(records)[id].challenge.value.attempts < MaxAttempts
              && old(records)[id].challenge.value.otp == submitted ==>
                reply == Reported(Approved)
                && records == old(records)[id := old(records)[id].(status := Approved)]
    {
      if id !in records {
        return NotFound;
      }
      var txn := records[id];
      if txn.status != OtpPending {
        return Reported(txn.status);
      }
      var c := txn.challenge.value;
      if c.attempts >= MaxAttempts {
        records := records[id := txn.(status := Blocked)];
        return Reported(Blocked);
      }
      if c.otp != submitted {
        records := records[id := txn.(challenge := Some(c.(attempts := c.attempts + 1)))];
        return WrongOtp(MaxAttempts - (c.attempts + 1));
      }
      records := records[id := txn.(status := Approved)];
      return Reported(Approved);
    }
  }

  /** The end-to-end run: a transaction scored 0.95 is initiated, three
      wrong codes are submitted and then any fourth one. The handlers'
      contracts alone fix every reply. */
  method HighRiskThreeStrikes(transaction: Features, id: Id, code: int,
                              w1: int, w2: int, w3: int, fourth: int)
    returns (initiated: InitiateReply, replies: seq<VerifyReply>)
    requires IsCode(code) && w1 != code && w2 != code && w3 != code
    ensures initiated == OtpRequired(High, id, code)
    ensures replies == [WrongOtp(2), WrongOtp(1), WrongOtp(0), Reported(Blocked)]
  {
    var api := new TransactionStore();
    initiated := api.InitiateTransaction(transaction, 0.95, id, code);
    var r1 := api.VerifyOtp(id, w1);
    var r2 := api.VerifyOtp(id, w2);
    var r3 := api.VerifyOtp(id, w3);
    var r4 := api.VerifyOtp(id, fourth);
    replies := [r1, r2, r3, r4];
  }
}
