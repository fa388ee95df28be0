/**
 * Two helpers of src/main.rs over the player list: the marked-player count of
 * `analyze_demo` and the exclude filter of `update_filtered_players`.
 */
module PlayerList {
  import opened Wrappers
  import opened SteamId

  /** An entry of the marked-player list; only its SteamID is read here. */
  datatype PlayerListEntry = PlayerListEntry(steamid: string, proof: seq<string>, attributes: seq<string>)

  /** A row of the player table. */
  datatype PlayerStats = PlayerStats(username: string, steamid: string, demoCount: nat, isCheater: bool, proof: Option<string>)

  /** The SteamIDs of the list (the source's `HashSet`). */
  function MarkedIds(list: seq<PlayerListEntry>): (ids: set<string>)
    ensures forall id :: id in ids <==> exists i :: 0 <= i < |list| && list[i].steamid == id
  {
    if list == [] then {} else MarkedIds(list[..|list| - 1]) + {list[|list| - 1].steamid}
  }

  /**
   * The marked-player count of `analyze_demo`: the entries of the demo's
   * player map (name to SteamID) whose SteamID is on the list, and the total.
   */
  method CountMarked(players: map<string, string>, list: seq<PlayerListEntry>)
    returns (total: nat, marked: nat)
    ensures total == |players|
    ensures marked == |MarkedNames(players, players.Keys, MarkedIds(list))|
    ensures marked <= total
  {
    total := |players|;
    var ids := MarkedIds(list);
    marked := 0;
    var left := players.Keys;
    while left != {}
      invariant left <= players.Keys
      invariant marked == |MarkedNames(players, players.Keys - left, ids)|
      decreases |left|
    {
      var name :| name in left;
      MarkedNamesAdd(players, players.Keys - left, name, ids);
      if players[name] in ids {
        marked := marked + 1;
      }
      assert players.Keys - (left - {name}) == (players.Keys - left) + {name};
      left := left - {name};
    }
    assert players.Keys - left == players.Keys;
    MarkedAtMostAll(players, ids);
  }

  /** The names among `names` whose SteamID is in `ids`. */
  ghost function MarkedNames(players: map<string, string>, names: set<string>, ids: set<string>): set<string>
  {
    set n | n in names && n in players && players[n] in ids
  }

  lemma MarkedNamesAdd(players: map<string, string>, names: set<string>, name: string, ids: set<string>)
    requires name in players && name !in names
    ensures |MarkedNames(players, names + {name}, ids)| ==
      |MarkedNames(players, names, ids)| + (if players[name] in ids then 1 else 0)
  {
    var before := MarkedNames(players, names, ids);
    if players[name] in ids {
      assert MarkedNames(players, names + {name}, ids) == before + {name};
    } else {
      assert MarkedNames(players, names + {name}, ids) == before;
    }
  }

  lemma MarkedAtMostAll(players: map<string, string>, ids: set<string>)
    ensures |MarkedNames(players, players.Keys, ids)| <= |players|
  {
    var marked := MarkedNames(players, players.Keys, ids);
    assert marked <= players.Keys;
    SubsetCard(marked, players.Keys);
  }

  lemma SubsetCard<T>(a: set<T>, b: set<T>)
    requires a <= b
    ensures |a| <= |b|
  {
    if a != {} {
      var x :| x in a;
      SubsetCard(a - {x}, b - {x});
    }
  }

  /** ASCII `to_lowercase` of one character. */
  function Lower(c: char): char
  {
    if 'A' <= c <= 'Z' then (c as int + 32) as char else c
  }

  function LowerAll(s: string): (t: string)
    ensures |t| == |s|
    ensures forall i :: 0 <= i < |s| ==> t[i] == Lower(s[i])
  {
    seq(|s|, i requires 0 <= i < |s| => Lower(s[i]))
  }

  /** The filter closure: neither the SteamID nor the username contains the lower-cased exclude text. */
  predicate Keeps(p: PlayerStats, excludeLower: string)
  {
    !Contains(LowerAll(p.steamid), excludeLower) && !Contains(LowerAll(p.username), excludeLower)
  }

  /** `Iterator::filter`: the players the closure keeps, in order. */
  function FilterKept(players: seq<PlayerStats>, excludeLower: string): seq<PlayerStats>
  {
    if players == [] then []
    else
      var p := players[|players| - 1];
      FilterKept(players[..|players| - 1], excludeLower) + (if Keeps(p, excludeLower) then [p] else [])
  }

  /** `update_filtered_players`: every player for an empty exclude text, else the kept ones. */
  function FilteredPlayers(players: seq<PlayerStats>, exclude: string): seq<PlayerStats>
  {
    var excludeLower := LowerAll(exclude);
    if excludeLower == [] then players else FilterKept(players, excludeLower)
  }

  /** The filter keeps exactly the players the closure accepts, and no more of them than there were. */
  lemma {:induction false} FilterKeptMembers(players: seq<PlayerStats>, excludeLower: string, p: PlayerStats)
    ensures p in FilterKept(players, excludeLower) <==> p in players && Keeps(p, excludeLower)
    ensures |FilterKept(players, excludeLower)| <= |players|
  {
    if players != [] {
      var init := players[..|players| - 1];
      FilterKeptMembers(init, excludeLower, p);
      assert players == init + [players[|players| - 1]];
    }
  }

  /** `r` lists the players at the ascending positions `idx`, and those are exactly the positions of kept players. */
  ghost predicate SelectsKept(r: seq<PlayerStats>, players: seq<PlayerStats>, idx: seq<nat>, excludeLower: string)
  {
    && |idx| == |r|
    && (forall k :: 0 <= k < |idx| ==> idx[k] < |players| && r[k] == players[idx[k]])
    && (forall k, l :: 0 <= k < l < |idx| ==> idx[k] < idx[l])
    && (forall i :: 0 <= i < |players| ==> (i in idx <==> Keeps(players[i], excludeLower)))
  }

  /** A kept player appended to the input is appended to the selection at its position. */
  lemma SelectsKeptSnoc(r: seq<PlayerStats>, players: seq<PlayerStats>, idx: seq<nat>, excludeLower: string, x: PlayerStats)
    requires SelectsKept(r, players, idx, excludeLower)
    requires Keeps(x, excludeLower)
    ensures SelectsKept(r + [x], players + [x], idx + [|players|], excludeLower)
  {
    var ps := players + [x];
    var ix := idx + [|players|];
    forall k | 0 <= k < |ix|
      ensures ix[k] < |ps| && (r + [x])[k] == ps[ix[k]]
    {
      if k < |idx| {
        assert ix[k] == idx[k] && ps[idx[k]] == players[idx[k]];
      }
    }
    forall i | 0 <= i < |ps|
      ensures i in ix <==> Keeps(ps[i], excludeLower)
    {
      if i < |players| {
        assert ps[i] == players[i];
        assert i in ix <==> i in idx;
      }
    }
  }

  /** A dropped player appended to the input leaves the selection as it was. */
  lemma SelectsDropSnoc(r: seq<PlayerStats>, players: seq<PlayerStats>, idx: seq<nat>, excludeLower: string, x: PlayerStats)
    requires SelectsKept(r, players, idx, excludeLower)
    requires !Keeps(x, excludeLower)
    ensures SelectsKept(r, players + [x], idx, excludeLower)
  {
    var ps := players + [x];
    forall k | 0 <= k < |idx|
      ensures idx[k] < |ps| && r[k] == ps[idx[k]]
    {
      assert ps[idx[k]] == players[idx[k]];
    }
    forall i | 0 <= i < |ps|
      ensures i in idx <==> Keeps(ps[i], excludeLower)
    {
      if i < |players| {
        assert ps[i] == players[i];
      }
    }
  }

  /** The filter keeps the kept players in their original order: it is the subsequence of exactly those. */
  lemma {:induction false} FilterKeptOrder(players: seq<PlayerStats>, excludeLower: string)
    ensures exists idx :: SelectsKept(FilterKept(players, excludeLower), players, idx, excludeLower)
  {
    if players == [] {
      assert SelectsKept(FilterKept(players, excludeLower), players, [], excludeLower);
    } else {
      var n := |players| - 1;
      var init := players[..n];
      var x := players[n];
      assert players == init + [x];
      FilterKeptOrder(init, excludeLower);
      var idx0 :| SelectsKept(FilterKept(init, excludeLower), init, idx0, excludeLower);
      if Keeps(x, excludeLower) {
        SelectsKeptSnoc(FilterKept(init, excludeLower), init, idx0, excludeLower, x);
        assert FilterKept(players, excludeLower) == FilterKept(init, excludeLower) + [x];
        assert SelectsKept(FilterKept(players, excludeLower), players, idx0 + [n], excludeLower);
      } else {
        SelectsDropSnoc(FilterKept(init, excludeLower), init, idx0, excludeLower, x);
        assert FilterKept(players, excludeLower) == FilterKept(init, excludeLower);
        assert SelectsKept(FilterKept(players, excludeLower), players, idx0, excludeLower);
      }
    }
  }

  /**
   * The filter: an empty exclude text shows every player; otherwise a player
   * is shown iff neither its SteamID nor its username, lower-cased, contains
   * the lower-cased exclude text, and the shown players keep their order.
   */
  lemma FilteredPlayersSpec(players: seq<PlayerStats>, exclude: string, p: PlayerStats)
    ensures exclude == [] ==> FilteredPlayers(players, exclude) == players
    ensures exclude != [] ==>
      (p in FilteredPlayers(players, exclude) <==> p in players && Keeps(p, LowerAll(exclude)))
    ensures exclude != [] ==>
      exists idx :: SelectsKept(FilteredPlayers(players, exclude), players, idx, LowerAll(exclude))
  {
    if exclude != [] {
      FilterKeptMembers(players, LowerAll(exclude), p);
      FilterKeptOrder(players, LowerAll(exclude));
    }
  }

  /** Without the empty-text case the filter would hide everyone: every string contains the empty one. */
  lemma EmptyExcludeMatchesAll(p: PlayerStats)
    ensures !Keeps(p, [])
  {
    assert OccursAt(LowerAll(p.steamid), [], 0);
  }
}
