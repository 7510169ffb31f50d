// The list of background processes a run has started: one entry per id, the last update wins.
module Processes {
  import opened Text
  import opened Domain

  // A task compares ids as they are, an agent run compares them trimmed.
  function Key(exact: bool, p: Process): string {
    if exact then p.id else TrimSpace(p.id)
  }

  // The first entry with the key, or the length of the list.
  function IndexOf(exact: bool, list: seq<Process>, key: string): (i: nat)
    ensures i <= |list| && (i < |list| ==> Key(exact, list[i]) == key)
    ensures forall k :: 0 <= k < i ==> Key(exact, list[k]) != key
  {
    if list == [] || Key(exact, list[0]) == key then 0 else 1 + IndexOf(exact, list[1..], key)
  }

  function MergeOne(exact: bool, list: seq<Process>, u: Process): seq<Process> {
    var i := IndexOf(exact, list, Key(exact, u));
    if Blank(u.id) then list else if i < |list| then list[i := u] else list + [u]
  }

  function MergeAll(exact: bool, list: seq<Process>, updates: seq<Process>): seq<Process> {
    if updates == [] then list
    else MergeOne(exact, MergeAll(exact, list, updates[..|updates| - 1]), updates[|updates| - 1])
  }

  predicate Distinct(exact: bool, list: seq<Process>) {
    && (forall i :: 0 <= i < |list| ==> !Blank(list[i].id))
    && (forall i, j :: 0 <= i < j < |list| ==> Key(exact, list[i]) != Key(exact, list[j]))
  }

  method Merge(exact: bool, list: seq<Process>, updates: seq<Process>) returns (merged: seq<Process>)
    ensures merged == MergeAll(exact, list, updates)
  {
    hide Blank, TrimSpace, Key;
    merged := list;
    for n := 0 to |updates|
      invariant merged == MergeAll(exact, list, updates[..n])
    {
      var update := updates[n];
      assert updates[..n + 1][..n] == updates[..n];
      if Blank(update.id) {
        continue;
      }
      var replaced := false;
      ghost var before := merged;
      for i := 0 to |merged|
        invariant merged == before && !replaced
        invariant forall k :: 0 <= k < i ==> Key(exact, merged[k]) != Key(exact, update)
      {
        if Key(exact, merged[i]) == Key(exact, update) {
          merged := merged[i := update];
          replaced := true;
          break;
        }
      }
      if !replaced {
        merged := merged + [update];
      }
    }
    assert updates[..|updates|] == updates;
  }

  lemma {:induction false} MergeConcat(exact: bool, list: seq<Process>, a: seq<Process>, b: seq<Process>)
    ensures MergeAll(exact, list, a + b) == MergeAll(exact, MergeAll(exact, list, a), b)
    decreases |b|
  {
    hide MergeOne;
    if b == [] {
      assert a + b == a;
    } else {
      assert (a + b)[..|a + b| - 1] == a + b[..|b| - 1];
      MergeConcat(exact, list, a, b[..|b| - 1]);
    }
  }

  function Find(exact: bool, list: seq<Process>, key: string): Option<Process> {
    var i := IndexOf(exact, list, key);
    if i < |list| then Some(list[i]) else None
  }

  // The last update under a key, if any.
  function LastUpdate(exact: bool, updates: seq<Process>, key: string): Option<Process> {
    if updates == [] then None
    else
      var u := updates[|updates| - 1];
      if !Blank(u.id) && Key(exact, u) == key then Some(u) else LastUpdate(exact, updates[..|updates| - 1], key)
  }

  lemma FindAfterOne(exact: bool, list: seq<Process>, u: Process, key: string)
    requires Distinct(exact, list)
    ensures Distinct(exact, MergeOne(exact, list, u))
    ensures Find(exact, MergeOne(exact, list, u), key)
         == if !Blank(u.id) && Key(exact, u) == key then Some(u) else Find(exact, list, key)
    ensures |list| <= |MergeOne(exact, list, u)|
    ensures forall i :: 0 <= i < |list| ==> Key(exact, MergeOne(exact, list, u)[i]) == Key(exact, list[i])
  {
    hide Blank, TrimSpace, Key;
    var merged := MergeOne(exact, list, u);
    var i, j := IndexOf(exact, list, key), IndexOf(exact, merged, key);
    assert i < |list| ==> Key(exact, merged[i]) == key;
    if j < |merged| {
      assert merged[j] == u || (j < |list| && merged[j] == list[j]);
    }
    if !Blank(u.id) && Key(exact, u) == key {
      assert i < |merged| && merged[i] == u;
      assert j == i;
    }
  }

  // Ids stay distinct, entries stay where they were first added, and the entry of an id is
  // its last update.
  lemma {:induction false} LastUpdateWins(exact: bool, list: seq<Process>, updates: seq<Process>, key: string)
    requires Distinct(exact, list)
    ensures Distinct(exact, MergeAll(exact, list, updates))
    ensures Find(exact, MergeAll(exact, list, updates), key)
         == if LastUpdate(exact, updates, key).Some? then LastUpdate(exact, updates, key) else Find(exact, list, key)
    ensures |list| <= |MergeAll(exact, list, updates)|
    ensures forall i :: 0 <= i < |list| ==> Key(exact, MergeAll(exact, list, updates)[i]) == Key(exact, list[i])
    decreases |updates|
  {
    hide Blank, Key, Distinct, Find, MergeOne;
    if updates != [] {
      var front := updates[..|updates| - 1];
      LastUpdateWins(exact, list, front, key);
      FindAfterOne(exact, MergeAll(exact, list, front), updates[|updates| - 1], key);
    }
  }

  // Every reported process with an id is in the list.
  lemma {:induction false} ReportedIsListed(exact: bool, updates: seq<Process>, u: Process)
    requires u in updates && !Blank(u.id)
    ensures LastUpdate(exact, updates, Key(exact, u)).Some?
    decreases |updates|
  {
    hide Blank, Key;
    if u != updates[|updates| - 1] {
      ReportedIsListed(exact, updates[..|updates| - 1], u);
    }
  }

  predicate Listed(exact: bool, list: seq<Process>, u: Process) {
    exists i :: 0 <= i < |list| && if exact then list[i].id == u.id else TrimSpace(list[i].id) == TrimSpace(u.id)
  }

  // The list of a task never has two entries with one id, that of an agent never two whose
  // ids differ only in white space around them; every reported process with an id is in it.
  lemma IdsStayApart(exact: bool, updates: seq<Process>)
    ensures var list := MergeAll(exact, [], updates);
            && (forall i, j :: 0 <= i < j < |list| ==>
                  if exact then list[i].id != list[j].id else TrimSpace(list[i].id) != TrimSpace(list[j].id))
            && (forall u :: u in updates && !AllSpace(u.id) ==> Listed(exact, list, u))
  {
    hide TrimSpace, MergeAll, LastUpdate, AllSpace;
    var list := MergeAll(exact, [], updates);
    LastUpdateWins(exact, [], updates, "");
    forall u | u in updates && !AllSpace(u.id) ensures Listed(exact, list, u) {
      BlankIsAllSpace(u.id);
      ReportedIsListed(exact, updates, u);
      LastUpdateWins(exact, [], updates, Key(exact, u));
      var i := IndexOf(exact, list, Key(exact, u));
      assert i < |list| && Key(exact, list[i]) == Key(exact, u);
    }
  }
}
