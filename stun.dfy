/**
 * The choice of STUN server in src/app/remoteGame.ts: among the candidate
 * addresses, each with its distance to the player, the closest one is put in
 * front of the list of ICE servers the peers use. Fetching the candidates,
 * their geolocation and the player's, and computing the distances, happen
 * before this and are not modelled; the distances are given.
 */
module Stun {
  import opened Options

  /** One entry of `iceServers`; a TURN relay also carries its credentials. */
  datatype IceServer = IceServer(urls: string, username: Option<string>, credential: Option<string>)

  /** An address from the list of STUN servers and its distance to the player. */
  datatype Candidate = Candidate(addr: string, dist: real)

  const TURN_USERNAME: string := "c232ae0f3fd3138bec9ddb8b"
  const TURN_CREDENTIAL: string := "HudKCArjK0Mx62LU"

  function Turn(urls: string): IceServer {
    IceServer(urls, Some(TURN_USERNAME), Some(TURN_CREDENTIAL))
  }

  /** The fixed list the peers use when no closer server was found: two STUN servers, then four TURN relays. */
  const FALLBACK_ICE_SERVERS: seq<IceServer> := [
    IceServer("stun:stun.l.google.com:19302", None, None),
    IceServer("stun:stun.relay.metered.ca:80", None, None),
    Turn("turn:standard.relay.metered.ca:80"),
    Turn("turn:standard.relay.metered.ca:80?transport=tcp"),
    Turn("turn:standard.relay.metered.ca:443"),
    Turn("turns:standard.relay.metered.ca:443?transport=tcp")
  ]

  /** Index `i` holds a smallest distance, and every earlier candidate is strictly farther. */
  predicate IsFirstClosest(cs: seq<Candidate>, i: int) {
    && 0 <= i < |cs|
    && (forall k :: 0 <= k < |cs| ==> cs[i].dist <= cs[k].dist)
    && (forall k :: 0 <= k < i ==> cs[k].dist > cs[i].dist)
  }

  /**
   * `reduce((prev, curr) => prev[1] <= curr[1] ? prev : curr)`, followed by
   * position: `best` is the candidate kept so far from `cs[..next]`, and the
   * fold goes on with `cs[next]`. A later candidate replaces the kept one
   * only when strictly closer, so ties keep the earlier entry.
   */
  function FoldClosest(cs: seq<Candidate>, best: nat, next: nat): (r: nat)
    requires best < next <= |cs|
    requires forall k :: 0 <= k < next ==> cs[best].dist <= cs[k].dist
    requires forall k :: 0 <= k < best ==> cs[k].dist > cs[best].dist
    ensures IsFirstClosest(cs, r)
    decreases |cs| - next
  {
    if next == |cs| then best
    else if cs[best].dist <= cs[next].dist then FoldClosest(cs, best, next + 1)
    else FoldClosest(cs, next, next + 1)
  }

  /**
   * The address the reduction picks, or `None` for an empty list, where
   * `reduce` without an initial value throws.
   */
  function Closest(cs: seq<Candidate>): (r: Option<string>)
    ensures r.None? <==> cs == []
    ensures r.Some? ==> exists i :: IsFirstClosest(cs, i) && r.value == cs[i].addr
  {
    if cs == [] then None else Some(cs[FoldClosest(cs, 0, 1)].addr)
  }

  /** The first closest candidate is unique, so the choice does not depend on how it is found. */
  lemma FirstClosestUnique(cs: seq<Candidate>, i: int, j: int)
    requires IsFirstClosest(cs, i) && IsFirstClosest(cs, j)
    ensures i == j
  {
    assert cs[i].dist == cs[j].dist;
  }

  /**
   * The reduction picks the first closest candidate: ties keep the earlier
   * entry, and a later candidate wins only when strictly closer.
   */
  lemma ClosestPicksFirstClosest(cs: seq<Candidate>, i: int)
    requires IsFirstClosest(cs, i)
    ensures Closest(cs) == Some(cs[i].addr)
  {
    FirstClosestUnique(cs, FoldClosest(cs, 0, 1), i);
  }

  /** The ICE server entry for an address: `'stun:' + addr`, no credentials. */
  function StunServer(addr: string): (s: IceServer)
    ensures |s.urls| == 5 + |addr|
    ensures s.urls[..5] == "stun:" && s.urls[5..] == addr
    ensures s.username.None? && s.credential.None?
  {
    IceServer("stun:" + addr, None, None)
  }

  /**
   * The module's `iceServers` list and its `finishedGeoLoc` flag. The peers
   * are created only once the flag is set.
   */
  class IceConfig {
    var iceServers: seq<IceServer>
    var finishedGeoLoc: bool

    constructor ()
      ensures iceServers == FALLBACK_ICE_SERVERS && !finishedGeoLoc
    {
      iceServers := FALLBACK_ICE_SERVERS;
      finishedGeoLoc := false;
    }

    /**
     * The lookup succeeded with these candidates: the closest address is put
     * in front of the list, the earlier entries keep their order after it,
     * and the peers may be created. With no candidates the reduction throws
     * before anything changes.
     */
    method PreferClosest(cs: seq<Candidate>) returns (chosen: Option<string>)
      modifies this
      ensures chosen == Closest(cs)
      ensures cs == [] ==> iceServers == old(iceServers) && finishedGeoLoc == old(finishedGeoLoc)
      ensures cs != [] ==> iceServers == [StunServer(chosen.value)] + old(iceServers) && finishedGeoLoc
    {
      chosen := Closest(cs);
      if chosen.None? {
        return;
      }
      iceServers := [StunServer(chosen.value)] + iceServers;
      finishedGeoLoc := true;
    }

    /** A fetch failed: the fallback list is used as it is. */
    method LookupFailed()
      modifies this
      ensures iceServers == old(iceServers) && finishedGeoLoc
    {
      finishedGeoLoc := true;
    }
  }
}
