/**
 The active branch of a session tree (emain/agent-rewind-service.ts) and the relinking that an export
 does with it (emain/agent-ipc.ts).
 */
module SessionBranch {
  import opened Wrappers

  /** `isLeaf` marks the entries of type "leaf", which only record where the session stands. */
  datatype Entry = Entry(id: string, parentId: Option<string>, isLeaf: bool, content: string)

  /** The map from ids to entries; of several entries with one id the last counts. */
  function ById(entries: seq<Entry>): map<string, Entry>
    decreases |entries|
  {
    if entries == [] then map[] else
      var last := entries[|entries| - 1];
      var earlier := ById(entries[..|entries| - 1]);
      if last.isLeaf then earlier else earlier[last.id := last]
  }

  /** A chain of entries from a root down to `leafId`, each the parent of the next. */
  ghost predicate IsBranch(byId: map<string, Entry>, leafId: string, chain: seq<Entry>) {
    && chain != []
    && chain[|chain| - 1].id == leafId
    && chain[0].parentId.None?
    && (forall i | 0 <= i < |chain| :: chain[i].id in byId && byId[chain[i].id] == chain[i])
    && (forall i | 0 < i < |chain| :: chain[i].parentId == Some(chain[i - 1].id))
  }

  ghost predicate DistinctIds(chain: seq<Entry>) {
    forall i, j | 0 <= i < j < |chain| :: chain[i].id != chain[j].id
  }

  lemma {:induction false} ByIdExact(entries: seq<Entry>, id: string)
    ensures id in ById(entries) <==> exists i | 0 <= i < |entries| :: entries[i].id == id && !entries[i].isLeaf
    ensures id in ById(entries) ==>
              exists i | 0 <= i < |entries| ::
                && entries[i] == ById(entries)[id] && entries[i].id == id && !entries[i].isLeaf
                && (forall j | i < j < |entries| :: entries[j].id == id ==> entries[j].isLeaf)
    decreases |entries|
  {
    if entries != [] {
      var n := |entries| - 1;
      ByIdExact(entries[..n], id);
      if entries[n].id == id && !entries[n].isLeaf {
        assert entries[n] == ById(entries)[id];
      } else if id in ById(entries[..n]) {
        var i :| 0 <= i < n && entries[..n][i] == ById(entries[..n])[id] && entries[..n][i].id == id
                 && !entries[..n][i].isLeaf
                 && (forall j | i < j < n :: entries[..n][j].id == id ==> entries[..n][j].isLeaf);
        assert entries[i] == ById(entries)[id];
        forall j | i < j < |entries| && entries[j].id == id
          ensures entries[j].isLeaf
        {
          if j < n {
            assert entries[j] == entries[..n][j];
          }
        }
      }
    }
  }

  lemma {:induction false} BranchIsUnique(byId: map<string, Entry>, leafId: string,
                                       first: seq<Entry>, second: seq<Entry>)
    requires IsBranch(byId, leafId, first) && IsBranch(byId, leafId, second)
    ensures |first| == |second| && first == second
    decreases |first|
  {
    var m, n := |first| - 1, |second| - 1;
    assert first[m] == second[n];
    assert m > 0 ==> first[m].parentId == Some(first[m - 1].id);
    assert n > 0 ==> second[n].parentId == Some(second[n - 1].id);
    if m > 0 && n > 0 {
      BranchIsUnique(byId, first[m - 1].id, first[..m], second[..n]);
      assert first == first[..m] + [first[m]] && second == second[..n] + [second[n]];
    }
  }

  /** No id can come twice: the parts of the chain above either place would be two branches to one entry. */
  lemma BranchIsDistinct(byId: map<string, Entry>, leafId: string, chain: seq<Entry>)
    requires IsBranch(byId, leafId, chain)
    ensures DistinctIds(chain)
  {
    forall i, j | 0 <= i < j < |chain|
      ensures chain[i].id != chain[j].id
    {
      if chain[i].id == chain[j].id {
        BranchIsUnique(byId, chain[i].id, chain[..i + 1], chain[..j + 1]);
        assert false;
      }
    }
  }

  /** The part of a walk that was done from the leaf upwards, leaf first. */
  ghost predicate IsWalk(byId: map<string, Entry>, leafId: string, walked: seq<Entry>, cursor: Option<string>) {
    && (forall i | 0 <= i < |walked| :: walked[i].id in byId && byId[walked[i].id] == walked[i])
    && (forall i | 0 < i < |walked| :: walked[i - 1].parentId == Some(walked[i].id))
    && (if walked == [] then cursor == Some(leafId)
        else walked[0].id == leafId && cursor == walked[|walked| - 1].parentId)
  }

  /** A walk follows every branch, as far as it goes. */
  lemma {:induction false} WalkFollowsBranch(
      byId: map<string, Entry>, leafId: string, walked: seq<Entry>, cursor: Option<string>, chain: seq<Entry>)
    requires IsWalk(byId, leafId, walked, cursor) && IsBranch(byId, leafId, chain)
    ensures |walked| <= |chain|
    ensures forall i | 0 <= i < |walked| :: walked[i] == chain[|chain| - 1 - i]
    ensures cursor == if |walked| < |chain| then Some(chain[|chain| - 1 - |walked|].id) else None
    decreases |walked|
  {
    if walked != [] {
      var n := |walked| - 1;
      WalkFollowsBranch(byId, leafId, walked[..n], Some(walked[n].id), chain);
      assert n < |chain|;
      assert walked[n] == chain[|chain| - 1 - n];
      forall i | 0 <= i < |walked|
        ensures walked[i] == chain[|chain| - 1 - i]
      {
        if i < n {
          assert walked[i] == walked[..n][i];
        }
      }
    }
  }

  function Reversed(walked: seq<Entry>): (chain: seq<Entry>)
    ensures |chain| == |walked|
    ensures forall i | 0 <= i < |chain| :: chain[i] == walked[|walked| - 1 - i]
  {
    seq(|walked|, i requires 0 <= i < |walked| => walked[|walked| - 1 - i])
  }

  /**
   For arbitrary entries, cyclic or dangling ones included: the one branch to the leaf, root first and
   without duplicates, or nothing when there is no branch to it.
   */
  method ActiveBranch(entries: seq<Entry>, leafId: Option<string>) returns (branch: seq<Entry>)
    ensures leafId.None? ==> branch == []
    ensures leafId.Some? && branch != [] ==> IsBranch(ById(entries), leafId.value, branch) && DistinctIds(branch)
    ensures leafId.Some? && branch == [] ==> forall chain :: !IsBranch(ById(entries), leafId.value, chain)
  {
    if leafId.None? {
      return [];
    }
    var byId := ById(entries);
    var reverse: seq<Entry> := [];
    var visited: set<string> := {};
    var cursor := leafId;
    hide IsWalk, IsBranch, ById;
    WalkStarts(byId, leafId.value);
    while cursor.Some?
      invariant IsWalk(byId, leafId.value, reverse, cursor)
      invariant visited == Ids(reverse) && visited <= byId.Keys
      decreases |byId.Keys - visited|
    {
      if cursor.value in visited {
        NoBranchRoundACycle(byId, leafId.value, reverse, cursor);
        return [];
      }
      if cursor.value !in byId {
        NoBranchFromNowhere(byId, leafId.value, reverse, cursor);
        return [];
      }
      WalkContinues(entries, leafId.value, reverse, cursor);
      var entry := byId[cursor.value];
      reverse := reverse + [entry];
      Shrinks(byId.Keys, visited, cursor.value);
      visited := visited + {cursor.value};
      cursor := entry.parentId;
    }
    WalkArrives(byId, leafId.value, reverse);
    branch := Reversed(reverse);
    BranchIsDistinct(byId, leafId.value, branch);
  }

  function Ids(walked: seq<Entry>): set<string> {
    set i | 0 <= i < |walked| :: walked[i].id
  }

  lemma WalkStarts(byId: map<string, Entry>, leafId: string)
    ensures IsWalk(byId, leafId, [], Some(leafId)) && Ids([]) == {}
  {
  }

  lemma WalkContinues(entries: seq<Entry>, leafId: string, walked: seq<Entry>, cursor: Option<string>)
    requires IsWalk(ById(entries), leafId, walked, cursor) && cursor.Some? && cursor.value in ById(entries)
    ensures var entry := ById(entries)[cursor.value];
            && IsWalk(ById(entries), leafId, walked + [entry], entry.parentId)
            && Ids(walked + [entry]) == Ids(walked) + {cursor.value}
  {
    ByIdExact(entries, cursor.value);
    var after := walked + [ById(entries)[cursor.value]];
    forall id
      ensures id in Ids(walked) + {cursor.value} <==> id in Ids(after)
    {
      if id in Ids(walked) {
        var i :| 0 <= i < |walked| && walked[i].id == id;
        assert after[i].id == id;
      }
      assert after[|walked|].id == cursor.value;
    }
  }

  lemma WalkArrives(byId: map<string, Entry>, leafId: string, walked: seq<Entry>)
    requires IsWalk(byId, leafId, walked, None)
    ensures IsBranch(byId, leafId, Reversed(walked))
  {
    var chain := Reversed(walked);
    forall i | 0 < i < |chain|
      ensures chain[i].parentId == Some(chain[i - 1].id)
    {
      var k := |walked| - i;
      assert walked[k - 1].parentId == Some(walked[k].id);
    }
  }

  lemma NoBranchFromNowhere(byId: map<string, Entry>, leafId: string, walked: seq<Entry>, cursor: Option<string>)
    requires IsWalk(byId, leafId, walked, cursor) && cursor.Some? && cursor.value !in byId
    ensures forall chain :: !IsBranch(byId, leafId, chain)
  {
    forall chain
      ensures !IsBranch(byId, leafId, chain)
    {
      if IsBranch(byId, leafId, chain) {
        WalkFollowsBranch(byId, leafId, walked, cursor, chain);
      }
    }
  }

  lemma Shrinks(all: set<string>, seen: set<string>, id: string)
    requires id in all && id !in seen
    ensures |all - (seen + {id})| < |all - seen|
  {
    assert all - seen == all - (seen + {id}) + {id};
  }

  lemma NoBranchRoundACycle(byId: map<string, Entry>, leafId: string, walked: seq<Entry>, cursor: Option<string>)
    requires IsWalk(byId, leafId, walked, cursor) && cursor.Some?
    requires cursor.value in Ids(walked)
    ensures forall chain :: !IsBranch(byId, leafId, chain)
  {
    forall chain
      ensures !IsBranch(byId, leafId, chain)
    {
      if IsBranch(byId, leafId, chain) {
        WalkFollowsBranch(byId, leafId, walked, cursor, chain);
        BranchIsDistinct(byId, leafId, chain);
      }
    }
  }

  // ---- Exporting a branch ----

  function LineFor(branch: seq<Entry>, i: nat): Entry
    requires i < |branch|
  {
    branch[i].(parentId := if i == 0 then None else Some(branch[i - 1].id))
  }

  ghost predicate IsRelinked(branch: seq<Entry>, lines: seq<Entry>) {
    |lines| == |branch| && forall i | 0 <= i < |lines| :: lines[i] == LineFor(branch, i)
  }

  /** What the export writes: each entry with the entry before it as its parent, everything else kept. */
  method Relink(branch: seq<Entry>) returns (lines: seq<Entry>)
    ensures IsRelinked(branch, lines)
  {
    lines := [];
    var prevId: Option<string> := None;
    for i := 0 to |branch|
      invariant |lines| == i
      invariant forall k | 0 <= k < i :: lines[k] == LineFor(branch, k)
      invariant prevId == if i == 0 then None else Some(branch[i - 1].id)
    {
      lines := lines + [branch[i].(parentId := prevId)];
      prevId := Some(branch[i].id);
    }
  }

  /** A relinked entry is the old one but for its parent, which is the entry before it. */
  lemma RelinkedKeepsContent(branch: seq<Entry>, lines: seq<Entry>, i: nat)
    requires IsRelinked(branch, lines) && i < |branch|
    ensures |lines| == |branch| && lines[i].id == branch[i].id
    ensures lines[i].content == branch[i].content && lines[i].isLeaf == branch[i].isLeaf
    ensures lines[i].parentId == if i == 0 then None else Some(lines[i - 1].id)
  {
    assert forall k | 0 <= k < |lines| :: lines[k] == LineFor(branch, k);
  }

  ghost predicate SameIds(first: seq<Entry>, second: seq<Entry>) {
    |first| == |second| && forall i | 0 <= i < |first| :: first[i].id == second[i].id
  }

  lemma LinesLink(branch: seq<Entry>, lines: seq<Entry>)
    requires IsRelinked(branch, lines)
    ensures SameIds(lines, branch)
    ensures forall i | 0 <= i < |lines| :: lines[i].isLeaf == branch[i].isLeaf
    ensures lines != [] ==> lines[0].parentId.None?
    ensures forall i | 0 < i < |lines| :: lines[i].parentId == Some(lines[i - 1].id)
  {
    forall i | 0 < i < |lines|
      ensures lines[i].parentId == Some(lines[i - 1].id)
    {
      assert lines[i - 1].id == branch[i - 1].id;
    }
  }

  /**
   Walking an exported branch again from its last entry finds the same ids in the same order exactly
   if no id comes twice and no entry is of type "leaf".
   */
  lemma ExportRoundTrip(branch: seq<Entry>, lines: seq<Entry>)
    requires branch != [] && IsRelinked(branch, lines)
    ensures DistinctIds(branch) && (forall e | e in branch :: !e.isLeaf) <==>
              exists chain :: IsBranch(ById(lines), branch[|branch| - 1].id, chain) && SameIds(chain, branch)
  {
    var leafId := branch[|branch| - 1].id;
    LinesLink(branch, lines);
    if DistinctIds(branch) && (forall e | e in branch :: !e.isLeaf) {
      DistinctLinesFormABranch(lines);
    }
    forall chain | IsBranch(ById(lines), leafId, chain) && SameIds(chain, branch)
      ensures DistinctIds(branch) && (forall e | e in branch :: !e.isLeaf)
    {
      FoundAgain(branch, lines, chain);
    }
    hide IsBranch, DistinctIds, IsRelinked;
  }

  lemma FoundAgain(branch: seq<Entry>, lines: seq<Entry>, chain: seq<Entry>)
    requires branch != [] && IsRelinked(branch, lines)
    requires IsBranch(ById(lines), branch[|branch| - 1].id, chain) && SameIds(chain, branch)
    ensures DistinctIds(branch) && (forall e | e in branch :: !e.isLeaf)
  {
    LinesLink(branch, lines);
    BranchIsDistinct(ById(lines), branch[|branch| - 1].id, chain);
    forall i | 0 <= i < |branch|
      ensures !branch[i].isLeaf
    {
      assert chain[i].id == branch[i].id;
      ByIdExact(lines, branch[i].id);
      var k :| 0 <= k < |lines| && lines[k].id == branch[i].id && !lines[k].isLeaf;
      assert chain[k].id == chain[i].id;
    }
  }

  lemma DistinctLinesFormABranch(lines: seq<Entry>)
    requires lines != [] && DistinctIds(lines) && forall i | 0 <= i < |lines| :: !lines[i].isLeaf
    requires lines[0].parentId.None?
    requires forall i | 0 < i < |lines| :: lines[i].parentId == Some(lines[i - 1].id)
    ensures IsBranch(ById(lines), lines[|lines| - 1].id, lines)
  {
    forall i | 0 <= i < |lines|
      ensures lines[i].id in ById(lines) && ById(lines)[lines[i].id] == lines[i]
    {
      ByIdExact(lines, lines[i].id);
    }
  }

  /** So what `ActiveBranch` finds survives an export. */
  lemma ActiveBranchSurvivesExport(entries: seq<Entry>, leafId: string, branch: seq<Entry>, lines: seq<Entry>)
    requires IsBranch(ById(entries), leafId, branch) && IsRelinked(branch, lines)
    ensures exists chain :: IsBranch(ById(lines), leafId, chain) && SameIds(chain, branch)
    ensures forall chain | IsBranch(ById(lines), leafId, chain) :: SameIds(chain, branch)
  {
    BranchIsDistinct(ById(entries), leafId, branch);
    forall e | e in branch
      ensures !e.isLeaf
    {
      ByIdExact(entries, e.id);
    }
    ExportRoundTrip(branch, lines);
    var found :| IsBranch(ById(lines), leafId, found) && SameIds(found, branch);
    forall chain | IsBranch(ById(lines), leafId, chain)
      ensures SameIds(chain, branch)
    {
      BranchIsUnique(ById(lines), leafId, chain, found);
    }
  }
}
