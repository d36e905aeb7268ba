/** The order in which the network waves of one request may follow each other. */
module Waves {
  import opened Collections

  /** The wave being emitted and those left behind. */
  datatype Waves = Waves(current: Option<string>, closed: set<string>)

  const UNSTARTED := Waves(None, {})

  /** One more network row: a wave that was left behind may not come back. */
  function Entered(w: Waves, wave: string): Option<Waves> {
    if wave == "" then None
    else if w.current == Some(wave) then Some(w)
    else if wave in w.closed then None
    else Some(Waves(Some(wave), if w.current.Some? then w.closed + {w.current.value} else w.closed))
  }

  function Followed(names: seq<string>): Option<Waves> {
    if names == [] then Some(UNSTARTED)
    else
      var before := Followed(names[..|names| - 1]);
      if before.None? then None else Entered(before.value, names[|names| - 1])
  }

  /** Every row names a wave, and no wave comes back after another one. */
  ghost predicate Contiguous(names: seq<string>) {
    && (forall i | 0 <= i < |names| :: names[i] != "")
    && forall i, j, k | 0 <= i < j < k < |names| && names[i] == names[k] :: names[j] == names[i]
  }

  /** The state after some rows: the last wave, and every other one seen. */
  ghost predicate Tracks(names: seq<string>, w: Waves) {
    if names == [] then w == UNSTARTED
    else w.current == Some(names[|names| - 1]) && w.closed == set n | n in names && n != names[|names| - 1]
  }

  lemma TracksStep(names: seq<string>, w: Waves, wave: string)
    requires Tracks(names, w) && Contiguous(names)
    ensures Entered(w, wave).Some? <==> Contiguous(names + [wave])
    ensures Entered(w, wave).Some? ==> Tracks(names + [wave], Entered(w, wave).value)
  {
    var more, n := names + [wave], |names|;
    assert forall i | 0 <= i < n :: more[i] == names[i];
    assert more[n] == wave;
    if n > 0 && wave != names[n - 1] {
      if i :| 0 <= i < n && names[i] == wave {
        assert 0 <= i < n - 1 < n && more[i] == more[n] && more[n - 1] != more[i];
      } else {
        assert (set m | m in more && m != wave) == set m | m in names;
      }
    } else if n > 0 {
      assert (set m | m in more && m != wave) == set m | m in names && m != names[n - 1];
    }
  }

  /** Rows are accepted exactly when their waves are contiguous. */
  lemma {:induction false} ContiguousAccepted(names: seq<string>)
    ensures Followed(names).Some? <==> Contiguous(names)
    ensures Followed(names).Some? ==> Tracks(names, Followed(names).value)
  {
    if names != [] {
      var last := |names| - 1;
      ContiguousAccepted(names[..last]);
      assert names[..last] + [names[last]] == names;
      if Contiguous(names) {
        assert forall i | 0 <= i < last :: names[..last][i] == names[i];
      }
      if Followed(names[..last]).Some? {
        TracksStep(names[..last], Followed(names[..last]).value, names[last]);
      }
    }
  }
}
