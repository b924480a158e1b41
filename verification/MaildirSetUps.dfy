/** Setting up the maildirs of several folders one after the other, core/maildir.go:146-171. Folders can nest,
    and creating the path of an inner one creates the directory of an outer one, but not its parts. */
module MaildirSetUps {
  import opened Common
  import opened Sorting
  import opened Maildirs
  import OldmailText

  function LogOf(base: string, a: Account, folder: string): Path { LogPath(base, LogName(a, folder)) }

  /** The disk after the set-ups of all folders, in their order. */
  function TreeAfter(t: Tree, base: string, a: Account, folders: seq<string>): Tree {
    if folders == [] then t else
      var last := folders[|folders| - 1];
      SetUp(TreeAfter(t, base, a, folders[..|folders| - 1]), base, last, LogName(a, last)).0
  }

  predicate AllSucceed(t: Tree, base: string, a: Account, folders: seq<string>) {
    folders == [] ||
    var init, last := folders[..|folders| - 1], folders[|folders| - 1];
    AllSucceed(t, base, a, init) && SetUp(TreeAfter(t, base, a, init), base, last, LogName(a, last)).1
  }

  /** The first folder lies in the second one. */
  predicate Nested(inner: string, outer: string) { outer + "/" <= inner }

  /** The set-up of `g` makes the directory of `f`, which is another folder. */
  predicate Blocks(g: string, f: string) { Nested(g, f) || f == Join(g, NEW) || f == Join(g, CUR) || f == Join(g, TMP) }

  ghost predicate NoneBlocked(folders: seq<string>) {
    forall i, j :: 0 <= i < j < |folders| ==> !Blocks(folders[i], folders[j])
  }

  /** Nothing has been set up below the base directory yet. */
  ghost predicate Untouched(t: Tree, base: string, a: Account, folders: seq<string>) {
    && (forall f :: Join(base, f) !in t.dirs)
    && (forall f <- folders :: LogOf(base, a, f) !in t.files)
  }

  ghost predicate OwnLogs(base: string, a: Account, folders: seq<string>) {
    forall i, j :: 0 <= i < j < |folders| ==> LogOf(base, a, folders[i]) != LogOf(base, a, folders[j])
  }

  lemma JoinIsInjective(base: string, f: string, g: string)
    ensures Join(base, f) == Join(base, g) <==> f == g
  {
    assert Join(base, f)[|base| + 1..] == f && Join(base, g)[|base| + 1..] == g;
  }

  lemma AncestorsBelowBase(base: string, g: string, f: string)
    ensures Join(base, f) in Ancestors(Join(base, g)) <==> f == g || Nested(g, f)
  {
    var path := Join(base, g);
    if Nested(g, f) {
      var i := |base| + 1 + |f|;
      assert g[..|f| + 1] == f + "/" && g[|f|] == '/';
      assert path[i] == g[|f|] && BaseOf(path, i) == Join(base, f);
    }
    PathInAncestors(path);
    if Join(base, f) in Ancestors(path) {
      var i :| 0 <= i <= |path| && (i == |path| || path[i] == '/') && BaseOf(path, i) == Join(base, f);
      assert i == |base| + 1 + |f| && f == g[..|f|] by {
        assert path[|base| + 1..i] == f;
      }
      assert i < |path| ==> g[|f|] == '/' && g[..|f| + 1] == f + "/";
    }
  }

  /** Which directories below the base one set-up makes. */
  lemma MadeBelowBase(dirs: set<string>, base: string, g: string, f: string)
    ensures Join(base, f) in Mkdirs(dirs, Parts(Join(base, g))) <==>
            Join(base, f) in dirs || f == g || Blocks(g, f)
  {
    var folder := Join(base, g);
    assert Parts(folder)[..4] == Parts(folder);
    Made(dirs, folder, 4, Join(base, f));
    AncestorsBelowBase(base, g, f);
    hide Ancestors, Mkdirs, Nested;
    JoinIsInjective(base, f, g);
    PartIsBelowBase(base, g, f, NEW);
    PartIsBelowBase(base, g, f, CUR);
    PartIsBelowBase(base, g, f, TMP);
  }

  lemma PartIsBelowBase(base: string, g: string, f: string, part: string)
    ensures Join(base, f) == Join(Join(base, g), part) <==> f == Join(g, part)
  {
    assert Join(Join(base, g), part) == Join(base, Join(g, part));
    JoinIsInjective(base, f, Join(g, part));
  }

  predicate IsMade(folders: seq<string>, f: string) { exists g <- folders :: f == g || Blocks(g, f) }

  predicate Logged(base: string, a: Account, folders: seq<string>, p: Path) {
    exists g <- folders :: p == LogOf(base, a, g)
  }

  ghost predicate Accounted(t: Tree, base: string, a: Account, folders: seq<string>, now: Tree) {
    && (forall f :: Join(base, f) in now.dirs <==> IsMade(folders, f))
    && (forall p: Path :: p in now.files <==> p in t.files || Logged(base, a, folders, p))
  }

  lemma OneMoreMade(done: seq<string>, f: string, h: string)
    ensures IsMade(done + [f], h) <==> IsMade(done, h) || h == f || Blocks(f, h)
  {
    hide Blocks;
    assert forall g :: g in done + [f] <==> g in done || g == f;
    assert f in done + [f];
    if IsMade(done, h) {
      var g :| g in done && (h == g || Blocks(g, h));
      assert g in done + [f];
    }
  }

  lemma OneMoreLogged(base: string, a: Account, done: seq<string>, f: string, p: Path)
    ensures Logged(base, a, done + [f], p) <==> Logged(base, a, done, p) || p == LogOf(base, a, f)
  {
    hide LogOf;
    assert forall g :: g in done + [f] <==> g in done || g == f;
  }

  /** The next folder can be set up if and only if no folder before has made its directory. */
  lemma NextSetUp(t: Tree, base: string, a: Account, done: seq<string>, now: Tree, f: string)
    requires Accounted(t, base, a, done, now)
    requires LogOf(base, a, f) !in t.files && forall g <- done :: LogOf(base, a, g) != LogOf(base, a, f)
    ensures SetUp(now, base, f, LogName(a, f)).1 <==> forall g <- done :: !Blocks(g, f)
    ensures SetUp(now, base, f, LogName(a, f)).1 ==>
              Accounted(t, base, a, done + [f], SetUp(now, base, f, LogName(a, f)).0)
  {
    hide LogOf, LogName, LogPath, Blocks, Mkdirs, Parts, Join;
    if Join(base, f) in now.dirs {
      NoLogNoSuccess(now, base, f, a);
    } else {
      OneMoreAccounted(t, base, a, done, now, f);
    }
  }

  lemma NoLogNoSuccess(now: Tree, base: string, f: string, a: Account)
    requires Join(base, f) in now.dirs && LogOf(base, a, f) !in now.files
    ensures !SetUp(now, base, f, LogName(a, f)).1
  {
  }

  lemma OneMoreAccounted(t: Tree, base: string, a: Account, done: seq<string>, now: Tree, f: string)
    requires Accounted(t, base, a, done, now) && Join(base, f) !in now.dirs
    ensures SetUp(now, base, f, LogName(a, f)).1
    ensures Accounted(t, base, a, done + [f], SetUp(now, base, f, LogName(a, f)).0)
  {
    hide LogName, LogPath, Blocks, Mkdirs, Parts, Join, IsMade, Logged;
    var now' := SetUp(now, base, f, LogName(a, f)).0;
    forall h ensures Join(base, h) in now'.dirs <==> IsMade(done + [f], h) {
      MadeBelowBase(now.dirs, base, f, h);
      OneMoreMade(done, f, h);
    }
    forall p: Path ensures p in now'.files <==> p in t.files || Logged(base, a, done + [f], p) {
      OneMoreLogged(base, a, done, f, p);
    }
  }

  lemma {:induction false} SetUpsInTurn(t: Tree, base: string, a: Account, folders: seq<string>)
    requires Untouched(t, base, a, folders) && OwnLogs(base, a, folders)
    ensures AllSucceed(t, base, a, folders) <==> NoneBlocked(folders)
    ensures AllSucceed(t, base, a, folders) ==> Accounted(t, base, a, folders, TreeAfter(t, base, a, folders))
  {
    hide LogOf, Blocks, SetUp, Join;
    if folders == [] {
    } else {
      var init, last := folders[..|folders| - 1], folders[|folders| - 1];
      assert folders == init + [last];
      assert forall k :: 0 <= k < |init| ==> init[k] == folders[k];
      SetUpsInTurn(t, base, a, init);
      NoneBlockedOneMore(init, last);
      if AllSucceed(t, base, a, init) {
        hide Accounted, NoneBlocked;
        NextSetUp(t, base, a, init, TreeAfter(t, base, a, init), last);
      }
    }
  }

  lemma NoneBlockedOneMore(init: seq<string>, last: string)
    ensures NoneBlocked(init + [last]) <==> NoneBlocked(init) && forall g <- init :: !Blocks(g, last)
  {
    hide Blocks;
    var all := init + [last];
    assert forall k :: 0 <= k < |init| ==> init[k] == all[k];
    assert all[|init|] == last;
  }

  /** The folders of an account, each with a log file of its own, can all be set up in their order if and only
      if none of them comes after a folder that lies in it, or is a part of the maildir of one before. */
  lemma SetUpsSucceedIff(t: Tree, base: string, a: Account, folders: seq<string>)
    requires Untouched(t, base, a, folders) && OwnLogs(base, a, folders)
    ensures AllSucceed(t, base, a, folders) <==>
            forall i, j :: 0 <= i < j < |folders| ==> !Blocks(folders[i], folders[j])
  {
    SetUpsInTurn(t, base, a, folders);
  }

  // ---------- in the order of one worker ----------

  lemma {:induction false} PrefixIsBelow(s: string, t: string)
    requires s + "/" <= t
    ensures Below(s, t)
  {
    if s == "" {
    } else {
      assert (s + "/")[1..] == s[1..] + "/";
      PrefixIsBelow(s[1..], t[1..]);
    }
  }

  /** A single worker takes the folders in ascending order, in which a folder comes before those that lie in it;
      so it can set up all of them, unless one is a part of the maildir of another. Several workers can get the
      order wrong. */
  lemma AscendingSetUpsSucceed(t: Tree, base: string, a: Account, folders: seq<string>)
    requires Untouched(t, base, a, folders) && OwnLogs(base, a, folders) && StrictlyAscending(folders, Below)
    requires forall f <- folders, g <- folders :: f != Join(g, NEW) && f != Join(g, CUR) && f != Join(g, TMP)
    ensures AllSucceed(t, base, a, folders)
  {
    forall i, j | 0 <= i < j < |folders| ensures !Blocks(folders[i], folders[j]) {
      assert folders[i] in folders && folders[j] in folders;
      if Nested(folders[i], folders[j]) {
        PrefixIsBelow(folders[j], folders[i]);
        BelowIsStrict(folders[i], folders[j]);
      }
    }
    SetUpsInTurn(t, base, a, folders);
  }
}
