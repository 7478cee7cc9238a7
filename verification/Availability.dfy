/** The check every claim runs under the slot's flock, and the one exemption it
    makes: a key is let back into what its own lease session left behind. */
module Availability {
  import opened Poison

  datatype LeaseRead = Unreadable | Read(key: string, expires: int)

  datatype SlotState = Free | Leased | Quarantined | Unverifiable

  /** own: the slot is quarantined, but for the key that left the residue. */
  datatype Answer = Answer(state: SlotState, own: bool)

  predicate Alive(l: LeaseRead, now: int) {
    l.Read? && l.key != "" && now < l.expires
  }

  /** Who the residue is attributed to: the lease the slot still carries, live
      or not, or, once that is removed, the key the slot was provisioned for. */
  function LeaseOwner(m: Meta, l: LeaseRead): string
    requires l.Read?
  {
    if l.key != "" then l.key else m.leaseKey
  }

  predicate OwnLeaseResidue(m: Meta, l: LeaseRead, v: Verdict, forKey: string)
    requires l.Read?
  {
    forKey != "" && m.mode == "lease" && (v.LiveConsumers? || v.Residue?) && LeaseOwner(m, l) == forKey
  }

  function SlotAvailabilityLocked(m: Meta, l: LeaseRead, v: Verdict, now: int, forKey: string): Answer {
    if l.Unreadable? then Answer(Unverifiable, false)
    else if Alive(l, now) && l.key != forKey then Answer(Leased, false)
    else if v.Clean? then Answer(Free, false)
    else if OwnLeaseResidue(m, l, v, forKey) then Answer(Free, true)
    else Answer(Quarantined, forKey == "" && OwnLeaseResidue(m, l, v, LeaseOwner(m, l)))
  }

  /** The lease is live, and another key's. */
  predicate Elsewhere(l: LeaseRead, now: int, forKey: string) {
    l.Read? && l.key != "" && l.key != forKey && now < l.expires
  }

  /** A lease session under this key, and no other, left processes behind: the
      slot still carries its lease, or carries none and was last provisioned for it. */
  predicate LeftBy(m: Meta, l: LeaseRead, v: Verdict, key: string) {
    && l.Read? && key != "" && (l.key == key || (l.key == "" && m.leaseKey == key))
    && m.mode == "lease" && !v.Clean? && !v.ConsumerGroup? && !v.CheckFailure?
  }

  /** The answer, case by case. */
  lemma AnswerMeans(m: Meta, l: LeaseRead, v: Verdict, now: int, forKey: string)
    ensures var answer := SlotAvailabilityLocked(m, l, v, now, forKey);
            && (answer.state == Unverifiable <==> l == LeaseRead.Unreadable)
            && (answer.state == Leased <==> Elsewhere(l, now, forKey))
            && (answer.state == Free <==> l.Read? && !Elsewhere(l, now, forKey) && (v == Clean || LeftBy(m, l, v, forKey)))
            && (answer.own <==> l.Read? && !Elsewhere(l, now, forKey) && v != Clean
                                && if forKey == "" then exists key :: LeftBy(m, l, v, key) else LeftBy(m, l, v, forKey))
  {
    if forKey == "" && l.Read? && LeaseOwner(m, l) != "" {
      assert OwnLeaseResidue(m, l, v, LeaseOwner(m, l)) ==> LeftBy(m, l, v, LeaseOwner(m, l));
    }
  }

  /** What a claim may rely on when the answer is free. */
  lemma FreeMeans(m: Meta, l: LeaseRead, v: Verdict, now: int, forKey: string)
    requires SlotAvailabilityLocked(m, l, v, now, forKey).state == Free
    ensures l.Read? && (Alive(l, now) ==> l.key == forKey)
    ensures !v.ConsumerGroup? && !v.CheckFailure?
    ensures forKey == "" ==> v.Clean? && !Alive(l, now)
    ensures !v.Clean? ==> m.mode == "lease" && forKey == LeaseOwner(m, l) != ""
  {
  }

  /** The exemption never puts two different consumers on one simulator: on a
      slot with anything left behind, or under a live lease, at most one key is
      told it is free. */
  lemma OneConsumer(m: Meta, l: LeaseRead, v: Verdict, now: int, k1: string, k2: string)
    requires !v.Clean? || Alive(l, now)
    requires SlotAvailabilityLocked(m, l, v, now, k1).state == Free && SlotAvailabilityLocked(m, l, v, now, k2).state == Free
    ensures k1 == k2 != ""
  {
    FreeMeans(m, l, v, now, k1);
    FreeMeans(m, l, v, now, k2);
  }

  /** A keyless viewer is told of the exemption exactly when some key has it. */
  lemma ViewerIsToldTheTruth(m: Meta, l: LeaseRead, v: Verdict, now: int)
    requires !Alive(l, now)
    ensures SlotAvailabilityLocked(m, l, v, now, "").own <==>
            exists key :: SlotAvailabilityLocked(m, l, v, now, key) == Answer(Free, true)
  {
    if SlotAvailabilityLocked(m, l, v, now, "").own {
      assert SlotAvailabilityLocked(m, l, v, now, LeaseOwner(m, l)) == Answer(Free, true);
    }
  }

  /** Renewing or releasing and coming back, however much later, a key is never
      locked out by its own session's remains. */
  lemma OwnKeyGetsBackIn(m: Meta, l: LeaseRead, v: Verdict, now: int, key: string)
    requires key != "" && m.mode == "lease" && m.leaseKey == key && l.Read? && (l.key == key || l.key == "")
    ensures SlotAvailabilityLocked(m, l, v, now, key).state == Free <==> !v.ConsumerGroup? && !v.CheckFailure?
  {
  }
}
