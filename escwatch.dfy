/**
 * The decision loop of the Esc-key watcher that runs while a response
 * streams. Each wake-up delivers either one key read from the terminal or
 * the stop signal (which wins when both are ready). Esc interrupts the
 * client once and ends the watcher; the stop signal ends it quietly; any
 * other key is ignored.
 */
module EscWatch {

  const Esc: char := '\U{1B}'

  /** One wake-up of the watcher. */
  datatype KeyEvent = Key(c: char) | Stop

  /** How the watcher ended; `StillWatching` when the wake-ups ran out first. */
  datatype WatchOutcome = Interrupted | Stopped | StillWatching

  /** A wake-up that the watcher ignores. */
  predicate Ignored(e: KeyEvent)
  {
    e.Key? && e.c != Esc
  }

  /**
   * Runs the watcher over the wake-ups `keys`. `interrupts` counts the calls
   * to the client's interrupt, `consumed` the wake-ups handled.
   */
  method WatchEscKey(keys: seq<KeyEvent>) returns (outcome: WatchOutcome, interrupts: nat, consumed: nat)
    ensures consumed <= |keys|
    ensures forall j :: 0 <= j < consumed && (outcome == StillWatching || j < consumed - 1) ==> Ignored(keys[j])
    ensures outcome == Interrupted ==> consumed >= 1 && keys[consumed - 1] == Key(Esc)
    ensures outcome == Stopped ==> consumed >= 1 && keys[consumed - 1] == Stop
    ensures outcome == StillWatching ==> consumed == |keys|
    ensures interrupts == if outcome == Interrupted then 1 else 0
    ensures outcome == Interrupted <==>
      exists i :: 0 <= i < |keys| && keys[i] == Key(Esc) && forall j :: 0 <= j < i ==> keys[j] != Stop
  {
    interrupts := 0;
    consumed := 0;
    while consumed < |keys|
      invariant consumed <= |keys|
      invariant forall j :: 0 <= j < consumed ==> Ignored(keys[j])
      invariant interrupts == 0
    {
      var key := keys[consumed];
      consumed := consumed + 1;
      if key == Stop {
        outcome := Stopped;
        assert forall i :: 0 <= i < |keys| && keys[i] == Key(Esc) ==> exists j :: 0 <= j < i && keys[j] == Stop by {
          forall i | 0 <= i < |keys| && keys[i] == Key(Esc)
            ensures exists j :: 0 <= j < i && keys[j] == Stop
          {
            assert keys[consumed - 1] == Stop;
          }
        }
        return;
      }
      if key.c == Esc {
        interrupts := interrupts + 1;
        outcome := Interrupted;
        return;
      }
    }
    outcome := StillWatching;
  }
}
