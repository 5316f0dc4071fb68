/** The round-robin choice of a provider is fair. */
module DownloadProviders {
  import opened Core
  import opened StorageModel
  import opened DownloadModel

  /** The providers in the order in which the next calls look at them. */
  function Rotated(d: Download): seq<PeerId>
    requires d.next < |d.providers|
  {
    d.providers[d.next..] + d.providers[..d.next]
  }

  lemma {:induction false} ActiveOfBoth(a: seq<PeerId>, b: seq<PeerId>, failed: set<PeerId>)
    ensures ActiveOf(a + b, failed) == ActiveOf(a, failed) + ActiveOf(b, failed)
  {
    if a == [] {
      assert a + b == b;
    } else {
      assert (a + b)[1..] == a[1..] + b;
      ActiveOfBoth(a[1..], b, failed);
    }
  }

  lemma {:induction false} ActiveOfIs(peers: seq<PeerId>, failed: set<PeerId>)
    ensures forall p :: p in ActiveOf(peers, failed) <==> p in peers && p !in failed
    ensures NoDuplicates(peers) ==> NoDuplicates(ActiveOf(peers, failed))
    ensures |ActiveOf(peers, failed)| <= |peers|
  {
    if peers != [] {
      ActiveOfIs(peers[1..], failed);
      assert peers == [peers[0]] + peers[1..];
    }
  }

  lemma TurnedIs(d: Download)
    requires d.next < |d.providers|
    ensures d.next % |d.providers| == d.next
    ensures Turned(d) == d.(next := if d.next + 1 == |d.providers| then 0 else d.next + 1)
  {
    RemainderBelow(d.next, |d.providers|);
    RemainderBelow(d.next + 1, |d.providers|);
  }

  lemma RemainderBelow(x: nat, n: nat)
    requires x <= n && n > 0
    ensures x % n == if x == n then 0 else x
  {
  }

  lemma RotatedOnce(d: Download)
    requires d.next < |d.providers|
    ensures Turned(d).next < |d.providers| && Turned(d) == d.(next := Turned(d).next)
    ensures Rotated(Turned(d)) == Rotated(d)[1..] + [Rotated(d)[0]]
    ensures d.providers[d.next % |d.providers|] == Rotated(d)[0]
  {
    TurnedIs(d);
    hide Turned;
  }

  /** The search stops at the first active provider, and the next search starts behind it. */
  lemma {:induction false} ScanFinds(d: Download, tries: nat)
    requires d.next < |d.providers| && tries <= |d.providers|
    ensures var (peer, moved), seen, all :=
        Scan(d, tries), ActiveOf(Rotated(d)[..tries], d.failed), ActiveOf(Rotated(d), d.failed);
      && moved.next < |d.providers| && moved == d.(next := moved.next)
      && (seen == [] ==> peer.None?)
      && (seen != [] ==> && all != [] && peer == Some(all[0])
                         && ActiveOf(Rotated(moved), d.failed) == all[1..] + [all[0]])
    decreases tries
  {
    if tries > 0 {
      var moved, list := Turned(d), Rotated(d);
      RotatedOnce(d);
      hide Turned, Rotated;
      assert list[..tries][1..] == Rotated(moved)[..tries - 1];
      TurnedActive(list, d.failed);
      if list[0] in d.failed {
        ScanFinds(moved, tries - 1);
      }
    }
  }

  lemma TurnedActive(list: seq<PeerId>, failed: set<PeerId>)
    requires list != []
    ensures var all, turned := ActiveOf(list, failed), ActiveOf(list[1..] + [list[0]], failed);
      if list[0] in failed then turned == all
      else all == [list[0]] + ActiveOf(list[1..], failed) && turned == all[1..] + [all[0]]
  {
    ActiveOfBoth(list[1..], [list[0]], failed);
    assert ActiveOf([list[0]][1..], failed) == [];
  }

  /** None exactly when every provider has failed; else the first active one in turn. */
  lemma NextActiveIs(d: Download)
    requires d.next < |d.providers|
    ensures var (peer, moved), all := NextActive(d), ActiveOf(Rotated(d), d.failed);
      && moved.next < |d.providers| && moved == d.(next := moved.next)
      && (peer.None? <==> forall p | p in d.providers :: p in d.failed)
      && (peer.Some? ==> && all != [] && peer == Some(all[0])
                         && peer.value in d.providers && peer.value !in d.failed
                         && ActiveOf(Rotated(moved), d.failed) == all[1..] + [all[0]])
  {
    hide Scan, Rotated, ActiveOf, ActiveCount;
    ScanFinds(d, |d.providers|);
    RotationKeepsPeers(d);
    assert Rotated(d)[..|d.providers|] == Rotated(d);
    var all := ActiveOf(Rotated(d), d.failed);
    ActiveOfIs(Rotated(d), d.failed);
    if all != [] {
      assert all[0] in all;
    } else {
      assert forall p | p in d.providers :: p in Rotated(d) && p !in all;
    }
  }

  lemma RotationKeepsPeers(d: Download)
    requires d.next < |d.providers|
    ensures |Rotated(d)| == |d.providers| && forall p :: p in Rotated(d) <==> p in d.providers
    ensures NoDuplicates(d.providers) ==> NoDuplicates(Rotated(d))
    ensures |ActiveOf(Rotated(d), d.failed)| == ActiveCount(d)
  {
    ActiveOfBoth(d.providers[d.next..], d.providers[..d.next], d.failed);
    ActiveOfBoth(d.providers[..d.next], d.providers[d.next..], d.failed);
    assert d.providers == d.providers[..d.next] + d.providers[d.next..];
  }

  /** What `n` calls in a row return. */
  function Picks(d: Download, n: nat): seq<Option<PeerId>>
    decreases n
  {
    if n == 0 then [] else
    var (peer, moved) := NextActive(d);
    [peer] + Picks(moved, n - 1)
  }

  function Somes(peers: seq<PeerId>, n: nat): seq<Option<PeerId>>
    requires n <= |peers|
  {
    seq(n, i requires 0 <= i < n => Some(peers[i]))
  }

  lemma FirstPick(d: Download)
    requires d.next < |d.providers| && ActiveOf(Rotated(d), d.failed) != []
    ensures var (peer, moved), all := NextActive(d), ActiveOf(Rotated(d), d.failed);
      && moved.next < |moved.providers| && moved.failed == d.failed
      && peer == Some(all[0])
      && ActiveOf(Rotated(moved), moved.failed) == all[1..] + [all[0]]
  {
    RotationKeepsPeers(d);
    ActiveOfIs(Rotated(d), d.failed);
    assert ActiveOf(Rotated(d), d.failed)[0] in ActiveOf(Rotated(d), d.failed);
    NextActiveIs(d);
  }

  lemma {:induction false} PicksInTurn(d: Download, n: nat)
    requires d.next < |d.providers| && n <= |ActiveOf(Rotated(d), d.failed)|
    ensures Picks(d, n) == Somes(ActiveOf(Rotated(d), d.failed), n)
    decreases n
  {
    if n > 0 {
      hide NextActive, Rotated, ActiveOf;
      var all := ActiveOf(Rotated(d), d.failed);
      FirstPick(d);
      var (peer, moved) := NextActive(d);
      PicksInTurn(moved, n - 1);
      assert [peer] + Somes(all[1..] + [all[0]], n - 1) == Somes(all, n);
    }
  }

  /** As many calls as there are active providers return each of them exactly once, from any starting point. */
  lemma RoundRobinIsFair(d: Download)
    requires d.next < |d.providers| && NoDuplicates(d.providers)
    ensures var picks := Picks(d, ActiveCount(d));
      && |picks| == ActiveCount(d)
      && NoDuplicates(picks)
      && None !in picks
      && forall p :: Some(p) in picks <==> p in d.providers && p !in d.failed
  {
    var all, picks := ActiveOf(Rotated(d), d.failed), Picks(d, ActiveCount(d));
    RotationKeepsPeers(d);
    ActiveOfIs(Rotated(d), d.failed);
    PicksInTurn(d, |all|);
    forall p ensures Some(p) in picks <==> p in all {
      if p in all {
        var i :| 0 <= i < |all| && all[i] == p;
        assert picks[i] == Some(p);
      }
    }
  }
}
