/** The functions of runner/runtime/oauth.ts over the map of rotations under way, each proved to be a step
    of `Rotation`. */
module OAuth {
  import opened Options
  import opened Rotation
  import opened RotationRuns

  // ---------------------------------------------------------------- the module's map

  /** The functions of the module over its map, with the storage and the callers they serve */
  class Tokens {
    var stored: map<Key, Bundle>
    var refreshing: map<Key, Fid>
    var flights: map<Fid, Flight>
    var consumers: map<Cid, Consumer>
    ghost var replaced: set<(Key, Token)>
    ghost var stale: nat
    ghost var issued: set<(Key, Token)>

    ghost function View(): State
      reads this
    {
      State(stored, refreshing, flights, consumers, replaced, stale, issued)
    }

    /** oauthToken, up to its first await */
    method AskToken(c: Cid, key: Key)
      requires Base(View()) && c !in consumers
      modifies this`consumers
      ensures View() == old(Arrive(View(), c, key)) && Base(View())
    {
      StepBase(View(), DoArrive(c, key));
      consumers := consumers[c := Consumer(key, if key in refreshing then Behind(refreshing[key]) else Reading)];
    }

    /** oauthToken from the read it awaited to the await of rotate */
    method UseCredential(c: Cid, f: Fid, endpoint: bool, now: int)
      requires Base(View()) && Possible(View(), DoDecide(c, f, endpoint, now))
      modifies this
      ensures View() == old(Decide(View(), c, f, endpoint, now)) && Base(View())
    {
      StepBase(View(), DoDecide(c, f, endpoint, now));
      var key, b := consumers[c].key, consumers[c].phase.b;
      if !Due(b, endpoint, now) {
        consumers := consumers[c := Consumer(key, Got(Some(b.access)))];
      } else {
        var flight := Rotate(key, b, f);
        consumers := consumers[c := Consumer(key, Sharing(flight))];
      }
    }

    /** rotate: the flight under way, or a new one */
    method Rotate(key: Key, b: Bundle, f: Fid) returns (flight: Fid)
      modifies this`refreshing, this`flights, this`stale
      ensures flight == if key in old(refreshing) then old(refreshing)[key] else f
      ensures refreshing == old(if key in refreshing then refreshing else refreshing[key := f])
      ensures flights == old(if key in refreshing then flights else flights[f := Flight(key, b, Asking)])
      ensures stale == old(stale) + if key !in old(refreshing) && b.refresh.Some? && (key, b.refresh.value) in replaced then 1 else 0
    {
      if key in refreshing {
        return refreshing[key];
      }
      stale := stale + if b.refresh.Some? && (key, b.refresh.value) in replaced then 1 else 0;
      refreshing := refreshing[key := f];
      flights := flights[f := Flight(key, b, Asking)];
      flight := f;
    }

    /** The flight's last step, with or without a bundle: the `finally` and the settled promise */
    method Settle(f: Fid, result: Option<Bundle>)
      requires Base(View()) && InFlight(View(), f)
      modifies this`refreshing, this`flights
      ensures View() == old(End(View(), f, result)) && Base(View())
    {
      EndBase(View(), f, result);
      refreshing := refreshing - {flights[f].key};
      flights := flights[f := flights[f].(stage := Ended(result))];
    }
  }
}
