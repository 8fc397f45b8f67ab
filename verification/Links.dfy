/** Hop-by-hop retransmission over a lossy link, as the simulator and the daemon both do it. */
module Links {

  /** Tries a frame up to `tries` times; a try succeeds when its draw reaches the loss probability. */
  ghost predicate Tried(random: nat -> real, cursor: nat, loss: real, tries: nat, failed: nat) {
    && failed <= tries && (forall i :: cursor <= i < cursor + failed ==> random(i) < loss)
    && (failed < tries ==> random(cursor + failed) >= loss)
  }

  method Transmit(random: nat -> real, cursor: nat, loss: real, tries: nat)
    returns (failed: nat, lost: bool, cursor': nat)
    ensures Tried(random, cursor, loss, tries, failed) && (lost <==> failed == tries)
    ensures cursor' == cursor + failed + if lost then 0 else 1
  {
    failed, lost, cursor' := 0, true, cursor;
    while failed < tries
      invariant failed <= tries && lost && cursor' == cursor + failed
      invariant forall i :: cursor <= i < cursor + failed ==> random(i) < loss
    {
      cursor' := cursor' + 1;
      if random(cursor + failed) >= loss {
        lost := false;
        return;
      }
      failed := failed + 1;
    }
  }
}
