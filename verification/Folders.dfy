/** The interpreter for folder specifications, core/folder.go:30-106. */
module Folders {
  import opened Sorting
  import opened OrderedSets

  const ALL := "_ALL_"
  const GMAIL := "_Gmail_"

  predicate IsGmailDir(name: string) { "[Gmail]" <= name || "[Google Mail]" <= name }

  function TrimMinus(s: string): string { if "-" <= s then s[1..] else s }

  /** The folders a specification without its sign stands for. */
  predicate Names(spec: string, available: seq<string>, folder: string) {
    if spec == ALL then folder in available
    else if spec == GMAIL then folder in available && IsGmailDir(folder)
    else folder == spec
  }

  /** The folders a specification decides about. The program trims a second minus sign from a literal
      name it removes. */
  predicate Touches(spec: string, available: seq<string>, folder: string) {
    if "-" <= spec && spec[1..] != ALL && spec[1..] != GMAIL then folder == TrimMinus(spec[1..])
    else Names(TrimMinus(spec), available, folder)
  }

  predicate LastTouch(specs: seq<string>, available: seq<string>, folder: string, i: int) {
    && 0 <= i < |specs| && Touches(specs[i], available, folder)
    && forall j :: i < j < |specs| ==> !Touches(specs[j], available, folder)
  }

  /** The last specification that touches the folder is a positive one. */
  predicate Selected(specs: seq<string>, available: seq<string>, folder: string) {
    exists i :: 0 <= i < |specs| && LastTouch(specs, available, folder, i) && !("-" <= specs[i])
  }

  lemma LastTouchStep(specs: seq<string>, i: nat, available: seq<string>, folder: string, k: int)
    requires i < |specs|
    ensures LastTouch(specs[..i + 1], available, folder, k) <==>
            if Touches(specs[i], available, folder) then k == i else LastTouch(specs[..i], available, folder, k)
  {
    hide Touches;
    assert specs[..i + 1] == specs[..i] + [specs[i]];
  }

  lemma SelectedStep(specs: seq<string>, i: nat, available: seq<string>, folder: string)
    requires i < |specs|
    ensures Selected(specs[..i + 1], available, folder) <==>
            if Touches(specs[i], available, folder) then !("-" <= specs[i])
            else Selected(specs[..i], available, folder)
  {
    hide Touches, LastTouch;
    var before, now := specs[..i], specs[..i + 1];
    assert now[i] == specs[i] && forall k :: 0 <= k < i ==> before[k] == now[k];
    forall k | 0 <= k <= i
      ensures LastTouch(now, available, folder, k) <==>
              if Touches(specs[i], available, folder) then k == i else k < i && LastTouch(before, available, folder, k)
    {
      LastTouchStep(specs, i, available, folder, k);
      TouchIsInside(before, available, folder, k);
    }
  }

  lemma TouchIsInside(specs: seq<string>, available: seq<string>, folder: string, k: int)
    ensures LastTouch(specs, available, folder, k) ==> 0 <= k < |specs|
  {
  }

  // ---------- the program ----------

  method Include(folders: OrderedSet, spec: string, available: seq<string>)
    requires folders.Valid()
    modifies folders
    ensures folders.Valid()
    ensures forall f :: f in folders.Contents <==> f in old(folders.Contents) || Names(spec, available, f)
  {
    if spec == ALL {
      for i := 0 to |available|
        invariant folders.Valid()
        invariant forall f :: f in folders.Contents <==> f in old(folders.Contents) || f in available[..i]
      {
        folders.Add(available[i]);
        Extend(available, i);
      }
    } else if spec == GMAIL {
      for i := 0 to |available|
        invariant folders.Valid()
        invariant forall f :: f in folders.Contents <==>
                              f in old(folders.Contents) || (f in available[..i] && IsGmailDir(f))
      {
        if IsGmailDir(available[i]) {
          folders.Add(available[i]);
        }
        Extend(available, i);
      }
    } else {
      folders.Add(spec);
    }
  }

  /** The specification has lost its first minus sign already. */
  method Exclude(folders: OrderedSet, spec: string, available: seq<string>)
    requires folders.Valid()
    modifies folders
    ensures folders.Valid()
    ensures forall f :: f in folders.Contents <==>
                        f in old(folders.Contents) && !Touches("-" + spec, available, f)
  {
    assert ("-" + spec)[1..] == spec;
    if spec == ALL {
      for i := 0 to |available|
        invariant folders.Valid()
        invariant forall f :: f in folders.Contents <==> f in old(folders.Contents) && f !in available[..i]
      {
        ghost var before := folders.Contents;
        folders.Remove(available[i]);
        WithoutIs(before, available[i]);
        Extend(available, i);
      }
    } else if spec == GMAIL {
      for i := 0 to |available|
        invariant folders.Valid()
        invariant forall f :: f in folders.Contents <==>
                              f in old(folders.Contents) && !(f in available[..i] && IsGmailDir(f))
      {
        ghost var before := folders.Contents;
        if IsGmailDir(available[i]) {
          folders.Remove(available[i]);
          WithoutIs(before, available[i]);
        }
        Extend(available, i);
      }
    } else {
      WithoutIs(folders.Contents, TrimMinus(spec));
      folders.Remove(TrimMinus(spec));
    }
  }

  lemma Extend(s: seq<string>, i: nat)
    requires i < |s|
    ensures forall x :: x in s[..i + 1] <==> x in s[..i] || x == s[i]
    ensures s[..|s|] == s
  {
    assert s[..i + 1] == s[..i] + [s[i]];
  }

  /** The folders to download, and the selected ones the server does not have, which are only reported. */
  method ExpandFolders(specs: seq<string>, available: seq<string>)
    returns (expanded: seq<string>, unselected: seq<string>)
    ensures StrictlyAscending(expanded, Below)
    ensures forall f :: f in expanded <==> f in available && Selected(specs, available, f)
    ensures forall f :: f in unselected <==> f !in available && Selected(specs, available, f)
  {
    var availableSet := SetFromSlice(available);
    var folders := new OrderedSet();
    assert forall f :: !Selected(specs[..0], available, f);
    hide Selected, Touches, Names;
    for i := 0 to |specs|
      invariant fresh(folders) && folders.Valid() && availableSet.Valid() && folders != availableSet
      invariant forall f :: f in availableSet.Contents <==> f in available
      invariant forall f :: f in folders.Contents <==> Selected(specs[..i], available, f)
    {
      if "-" <= specs[i] {
        assert specs[i] == "-" + specs[i][1..];
        Exclude(folders, specs[i][1..], available);
      } else {
        Include(folders, specs[i], available);
      }
      forall f ensures f in folders.Contents <==> Selected(specs[..i + 1], available, f) {
        SelectedStep(specs, i, available, f);
      }
    }
    assert specs[..|specs|] == specs;
    var unknown := folders.Exclusion(availableSet);
    unselected := unknown.OrderedEntries();
    var known := folders.Union(availableSet);
    var entries := known.OrderedEntries();
    expanded := SortStrings(entries);
    SameElements(entries, expanded);
  }

  /** Nothing is left to the order in which maps are iterated: the promise fixes the result. */
  lemma ExpansionIsDetermined(specs: seq<string>, available: seq<string>, a: seq<string>, b: seq<string>)
    requires StrictlyAscending(a, Below) && StrictlyAscending(b, Below)
    requires forall f :: f in a <==> f in available && Selected(specs, available, f)
    requires forall f :: f in b <==> f in available && Selected(specs, available, f)
    ensures a == b
  {
    BelowIsOrder();
    AscendingIsUnique(a, b, Below);
  }

  /** The two selectors and the two prefixes, word by word. */
  lemma SelectorsAreThese(available: seq<string>, f: string)
    ensures Selected(["_ALL_"], available, f) <==> f in available
    ensures Selected(["_Gmail_"], available, f) <==>
            f in available && ("[Gmail]" <= f || "[Google Mail]" <= f)
    ensures Selected(["_ALL_", "-_Gmail_"], available, f) <==>
            f in available && !("[Gmail]" <= f) && !("[Google Mail]" <= f)
    ensures !Selected(["_ALL_", "-_ALL_"], available, f)
    ensures f != "" && f[0] != '-' && f != "_ALL_" && f != "_Gmail_" ==>
              && Selected([f], available, f)
              && !Selected([f, "-" + f], available, f) && !Selected([f, "--" + f], available, f)
  {
    SelectedLast(["_ALL_"], available, f);
    SelectedLast(["_Gmail_"], available, f);
    SelectedLast(["_ALL_", "-_Gmail_"], available, f);
    SelectedLast(["_ALL_", "-_ALL_"], available, f);
    assert ["_ALL_", "-_Gmail_"][..1] == ["_ALL_"] && ["_ALL_", "-_ALL_"][..1] == ["_ALL_"];
    assert "-_ALL_"[1..] == "_ALL_" && "-_Gmail_"[1..] == "_Gmail_";
    hide Selected;
    if f != "" && f[0] != '-' && f != "_ALL_" && f != "_Gmail_" {
      LiteralSelects(available, f);
    }
  }

  lemma LiteralSelects(available: seq<string>, f: string)
    requires f != "" && f[0] != '-' && f != "_ALL_" && f != "_Gmail_"
    ensures Selected([f], available, f)
    ensures !Selected([f, "-" + f], available, f) && !Selected([f, "--" + f], available, f)
  {
    SelectedLast([f], available, f);
    SelectedLast([f, "-" + f], available, f);
    SelectedLast([f, "--" + f], available, f);
    assert ("-" + f)[1..] == f && [f, "-" + f][..1] == [f];
    assert ("--" + f)[1..] == "-" + f && [f, "--" + f][..1] == [f];
    hide Selected;
  }

  lemma SelectedLast(specs: seq<string>, available: seq<string>, f: string)
    requires specs != []
    ensures var last := specs[|specs| - 1];
            Selected(specs, available, f) <==>
            if Touches(last, available, f) then !("-" <= last) else Selected(specs[..|specs| - 1], available, f)
    ensures !Selected([], available, f)
  {
    SelectedStep(specs, |specs| - 1, available, f);
    assert specs[..|specs| - 1 + 1] == specs;
  }

  // ---------- what the documentation says ----------

  /** README.md:211-222: a minus sign negates the specification behind it. */
  predicate DocTouches(spec: string, available: seq<string>, folder: string) {
    Names(TrimMinus(spec), available, folder)
  }

  predicate DocSelected(specs: seq<string>, available: seq<string>, folder: string) {
    exists i :: 0 <= i < |specs| && DocTouches(specs[i], available, folder) && !("-" <= specs[i])
      && forall j :: i < j < |specs| ==> !DocTouches(specs[j], available, folder)
  }

  /** With a given stock of specifications, every list means what is documented if and only if none of them
      starts with two minus signs: a folder whose name starts with a minus sign cannot be deselected. */
  lemma DocumentedUnlessDoubleMinus(stock: set<string>)
    requires ALL in stock
    ensures (forall specs: seq<string>, available: seq<string>, f: string |
               (forall s <- specs :: s in stock) && f in available ::
               Selected(specs, available, f) <==> DocSelected(specs, available, f))
            <==> (forall s <- stock :: !("--" <= s))
  {
    if s :| s in stock && "--" <= s {
      var f := s[1..];
      var specs, available := [ALL, s], [f];
      assert f in available && forall x <- specs :: x in stock;
      DoubleMinusMisses(s);
    } else {
      forall specs: seq<string>, available: seq<string>, f: string | forall s <- specs :: s in stock
        ensures Selected(specs, available, f) <==> DocSelected(specs, available, f)
      {
        forall i | 0 <= i < |specs|
          ensures Touches(specs[i], available, f) <==> DocTouches(specs[i], available, f)
        {
          assert specs[i] in specs;
        }
      }
    }
  }

  lemma DoubleMinusMisses(s: string)
    requires "--" <= s
    ensures Selected([ALL, s], [s[1..]], s[1..]) && !DocSelected([ALL, s], [s[1..]], s[1..])
  {
    var specs, available, f := [ALL, s], [s[1..]], s[1..];
    assert f[0] == '-' && f != ALL && f != GMAIL;
    assert TrimMinus(f) != f;
    assert Touches(specs[0], available, f) && !Touches(specs[1], available, f);
    assert DocTouches(specs[1], available, f);
  }
}
