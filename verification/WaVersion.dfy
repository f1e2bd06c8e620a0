/** The announced client version: pinned, and moved forward only to a different one. */
module WaVersion {
  import opened Prelude

  datatype Version = Version(major: nat, minor: nat, build: nat)

  datatype Event = ProbeFailed | NoUpgrade(version: Version) | Adopted(from: Version, to: Version)

  class VersionSource {
    var active: Version
    var events: seq<Event>

    constructor (pinned: Version)
      ensures active == pinned && events == []
    {
      active, events := pinned, [];
    }

    /** `upstream` is None when the probe failed or threw.  It never throws itself, and tells what it did. */
    method FallForward(upstream: Option<Version>) returns (adopted: bool)
      modifies this
      ensures (active, adopted) == Fall(old(active), upstream)
      ensures events == old(events) + [if upstream.None? then ProbeFailed
                                       else if adopted then Adopted(old(active), active) else NoUpgrade(active)]
    {
      if upstream.None? {
        events := events + [ProbeFailed];
        return false;
      }
      if upstream.value == active {
        events := events + [NoUpgrade(active)];
        return false;
      }
      events := events + [Adopted(active, upstream.value)];
      active := upstream.value;
      return true;
    }
  }

  function Fall(active: Version, upstream: Option<Version>): (Version, bool) {
    if upstream.None? || upstream.value == active then (active, false) else (upstream.value, true)
  }

  /** The version after some fall-forwards, and how many adopted one. */
  function Falls(active: Version, probes: seq<Option<Version>>): (Version, nat)
    decreases |probes|
  {
    if probes == [] then (active, 0)
    else
      var (next, adopted) := Fall(active, probes[0]);
      var (last, more) := Falls(next, probes[1..]);
      (last, more + if adopted then 1 else 0)
  }

  /**
   While upstream offers one version, it is adopted at most once: a rejection cannot
   reset the reconnect budget again and again.  Once some probe reached upstream, the
   announced version is upstream's.
   */
  lemma {:induction false} AdoptedAtMostOnce(active: Version, upstream: Version, probes: seq<Option<Version>>)
    requires forall i :: 0 <= i < |probes| ==> probes[i].None? || probes[i].value == upstream
    ensures var (last, adoptions) := Falls(active, probes);
      && adoptions <= (if active == upstream then 0 else 1)
      && (Some(upstream) in probes ==> last == upstream)
      && (adoptions == 0 ==> last == active)
    decreases |probes|
  {
    if probes != [] {
      AdoptedAtMostOnce(Fall(active, probes[0]).0, upstream, probes[1..]);
      assert probes == [probes[0]] + probes[1..];
    }
  }
}
