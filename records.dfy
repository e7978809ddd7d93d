/** The stored transaction record and the two ways a handler creates one. */
module Records {
  import opened Risk

  datatype Option<T> = None | Some(value: T)

  /** The identifier the store generates for each inserted record; only
      equality between identifiers matters. */
  type Id(==)

  /** The raw transaction as submitted: named numeric features. */
  type Features = map<string, real>

  /** Wrong codes tolerated before a pending record is blocked. */
  const MaxAttempts: nat := 3

  /** Bounds of the six-digit one-time passcode (both inclusive). */
  const OtpMin: int := 100000
  const OtpMax: int := 999999

  predicate IsCode(n: int)
  {
    OtpMin <= n <= OtpMax
  }

  /** The statuses a record can hold in the store. */
  datatype Status = Approved | Open | Cleared | OtpPending | Blocked

  /** The `otp` and `attempts` fields, which a record has both or neither of. */
  datatype Challenge = Challenge(otp: int, attempts: nat)

  /** A stored transaction record (the timestamp is not modelled). */
  datatype Record = Record(
    transaction: Features,
    fraudProbability: real,
    risk: Tier,
    status: Status,
    challenge: Option<Challenge>)

  /** What every record the handlers write satisfies: the tier is the one its
      probability gives, a record without a challenge came from the check flow
      or is a LOW approval, and a record with a challenge carries a six-digit
      code, a non-LOW tier and at most MaxAttempts failed attempts, is blocked
      only with all attempts used and approved only with some left. */
  predicate WellFormed(r: Record)
  {
    && 0.0 <= r.fraudProbability <= 1.0
    && r.risk == Classify(r.fraudProbability)
    && match r.challenge
       case None =>
         || (r.status == Approved && r.risk == Low)
         || (r.status == Open && r.risk == High)
         || (r.status == Cleared && r.risk != High)
       case Some(c) =>
         && r.risk != Low
         && IsCode(c.otp)
         && c.attempts <= MaxAttempts
         && (|| r.status == OtpPending
             || (r.status == Approved && c.attempts < MaxAttempts)
             || (r.status == Blocked && c.attempts == MaxAttempts))
  }

  /** The `transactions` collection, keyed by id, as the handlers keep it. */
  predicate ValidStore(store: map<Id, Record>)
  {
    forall id :: id in store ==> WellFormed(store[id])
  }

  /** The record the check flow inserts: never challenged, OPEN exactly when
      the probability is above the HIGH threshold, CLEARED otherwise. */
  function CheckRecord(transaction: Features, prob: real): (r: Record)
    requires 0.0 <= prob <= 1.0
    ensures WellFormed(r)
    ensures r.transaction == transaction && r.fraudProbability == prob
    ensures r.challenge == None
    ensures r.status == Open <==> prob > HighThreshold
    ensures r.status == Cleared <==> prob <= HighThreshold
  {
    var risk := Classify(prob);
    Record(transaction, prob, risk, if risk == High then Open else Cleared, None)
  }

  /** The record the initiate flow inserts: a LOW transaction is approved at
      once with no challenge; any other is left pending with the given code
      and no attempts used. */
  function InitiateRecord(transaction: Features, prob: real, code: int): (r: Record)
    requires 0.0 <= prob <= 1.0
    requires IsCode(code)
    ensures WellFormed(r)
    ensures r.transaction == transaction && r.fraudProbability == prob
    ensures prob <= MediumThreshold ==> r.status == Approved && r.challenge == None
    ensures prob > MediumThreshold ==>
              r.status == OtpPending && r.challenge == Some(Challenge(code, 0))
  {
    var risk := Classify(prob);
    if risk == Low then
      Record(transaction, prob, risk, Approved, None)
    else
      Record(transaction, prob, risk, OtpPending, Some(Challenge(code, 0)))
  }
}
