/**
  The league a trophy count falls in: the first league of the cached league
  list whose trophy range (both ends inclusive) contains the count, or "-".
*/
module Leagues {
  import opened Wrappers

  /** One entry of the league cache: `MinTrophy`, `MaxTrophy` and the league's name. */
  datatype LeagueInfo = LeagueInfo(minTrophy: int, maxTrophy: int, name: string)

  const NoLeague: string := "-"

  predicate InLeague(l: LeagueInfo, trophies: int) {
    l.minTrophy <= trophies <= l.maxTrophy
  }

  /** The index of the first league containing `trophies`, if any. */
  function FirstLeague(leagues: seq<LeagueInfo>, trophies: int): (r: Option<nat>)
    ensures r.Some? ==> r.value < |leagues| && InLeague(leagues[r.value], trophies)
    ensures r.Some? ==> forall k :: 0 <= k < r.value ==> !InLeague(leagues[k], trophies)
    ensures r.None? <==> forall k :: 0 <= k < |leagues| ==> !InLeague(leagues[k], trophies)
    decreases |leagues|
  {
    if |leagues| == 0 then None
    else if InLeague(leagues[0], trophies) then Some(0)
    else
      match FirstLeague(leagues[1..], trophies)
      case None => None
      case Some(k) => Some(k + 1)
  }

  /** The name `__get_league_from_trophies` returns. */
  function LeagueName(leagues: seq<LeagueInfo>, trophies: Option<int>): string {
    if trophies.None? then NoLeague
    else
      match FirstLeague(leagues, trophies.value)
      case None => NoLeague
      case Some(k) => leagues[k].name
  }

  /** `__get_league_from_trophies`: scans the league list and stops at the first range that contains the count. */
  method LeagueFromTrophies(leagues: seq<LeagueInfo>, trophies: Option<int>) returns (result: string)
    ensures result == LeagueName(leagues, trophies)
  {
    result := NoLeague;
    if trophies.Some? {
      var i := 0;
      while i < |leagues|
        invariant 0 <= i <= |leagues|
        invariant result == NoLeague
        invariant forall k :: 0 <= k < i ==> !InLeague(leagues[k], trophies.value)
      {
        if trophies.value >= leagues[i].minTrophy && trophies.value <= leagues[i].maxTrophy {
          result := leagues[i].name;
          FirstLeagueIs(leagues, trophies.value, i);
          break;
        }
        i := i + 1;
      }
    }
  }

  /** A league that contains the count and follows only leagues that do not is the one chosen. */
  lemma {:induction false} FirstLeagueIs(leagues: seq<LeagueInfo>, trophies: int, i: nat)
    requires i < |leagues| && InLeague(leagues[i], trophies)
    requires forall k :: 0 <= k < i ==> !InLeague(leagues[k], trophies)
    ensures FirstLeague(leagues, trophies) == Some(i)
    decreases i
  {
    if i > 0 {
      assert !InLeague(leagues[0], trophies);
      FirstLeagueIs(leagues[1..], trophies, i - 1);
    }
  }

  /**
    The result is "-" when the count is absent or in no league's range;
    otherwise it is the name of a league containing the count, and no earlier
    league contains it. With non-overlapping ranges it is the only such league.
  */
  lemma LeagueNameMeaning(leagues: seq<LeagueInfo>, trophies: Option<int>)
    ensures trophies.None? ==> LeagueName(leagues, trophies) == NoLeague
    ensures trophies.Some? && (forall k :: 0 <= k < |leagues| ==> !InLeague(leagues[k], trophies.value)) ==>
      LeagueName(leagues, trophies) == NoLeague
    ensures trophies.Some? && (exists k :: 0 <= k < |leagues| && InLeague(leagues[k], trophies.value)) ==>
      exists j :: 0 <= j < |leagues| && InLeague(leagues[j], trophies.value) && LeagueName(leagues, trophies) == leagues[j].name
        && forall k :: 0 <= k < j ==> !InLeague(leagues[k], trophies.value)
  {
    if trophies.Some? {
      var r := FirstLeague(leagues, trophies.value);
      if r.Some? {
        assert InLeague(leagues[r.value], trophies.value);
      }
    }
  }

  /** When no two ranges overlap, any league that contains the count is the one returned. */
  lemma DisjointLeagues(leagues: seq<LeagueInfo>, trophies: int, j: nat)
    requires forall k, l :: 0 <= k < l < |leagues| ==> leagues[k].maxTrophy < leagues[l].minTrophy
    requires j < |leagues| && InLeague(leagues[j], trophies)
    ensures LeagueName(leagues, Some(trophies)) == leagues[j].name
  {
    FirstLeagueIs(leagues, trophies, j);
  }
}
