/** A concrete run in which a redirect ends a lease of an epoch that its portal has left. */
module StaleHandoffWitness {
  import opened Options
  import opened Contracts
  import opened Coordinator
  import opened Epochs
  import opened ActivatedPortal
  import Redirects

  const STEPS := SETUP + [SWITCH]

  /** The redirect that the lease of epoch 1 reports under epoch 2. */
  const REDIRECT := HandoffStep(NAS, LEASE, Otodom, Some("x"), 9, T + 3)

  lemma StillLeased()
    ensures var db := Switched(CLAIMED);
            Redirects.HandoffLeased(db, NAS, LEASE, T + 3) && StaleEpoch(db, NAS, LEASE) && HandoffKey(1, Otodom, "x") !in db.handoffs
  {
    hide T;
  }

  /** A reachable database in which every other operation refuses the lease as one of a withdrawn epoch, and yet the
      handoff accepts it. */
  lemma StaleLeaseIsHandedOff()
    ensures var db := Run(CFG, EMPTY, STEPS);
            StaleEpoch(db, NAS, LEASE) && Apply(CFG, db, REDIRECT) != db
  {
    hide T, Apply, Run, Switched, CLAIMED, Redirects.Handoff, Redirects.HandoffLeased, StaleEpoch;
    RunSwitched();
    StillLeased();
    HandoffAcceptedExactly(CFG, STEPS, NAS, LEASE, Otodom, Some("x"), 9, T + 3);
    RedirectStep(Run(CFG, EMPTY, STEPS));
  }

  lemma RedirectStep(db: Db)
    ensures Apply(CFG, db, REDIRECT) == Redirects.Handoff(db, NAS, LEASE, Otodom, Some("x"), 9, T + 3).0
  {
    hide T, ApplyOutside, ApplyQueue, Redirects.Handoff;
  }
}
