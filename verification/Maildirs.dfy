/** Maildirs on a file system, core/maildir.go:98-200: delivery by way of `tmp/`, and the set-up of a new
    maildir with its log file. The file system remembers every content it ever had, so what holds of all
    of them holds after a crash at any point. */
module Maildirs {
  import opened Common
  import opened UniqueNames
  import Decimal
  import OldmailText

  datatype Path = Path(dir: string, name: string)
  type Files = map<Path, string>

  function Join(dir: string, name: string): string { dir + "/" + name }

  const NEW := "new"
  const CUR := "cur"
  const TMP := "tmp"

  /** The parts of a maildir, word by word. */
  lemma PartsAreThese(folder: string)
    ensures Parts(folder) == [folder, folder + "/new", folder + "/cur", folder + "/tmp"]
    ensures Join(folder, NEW) == folder + "/new" && Join(folder, TMP) == folder + "/tmp"
  {
    assert Join(folder, NEW) == folder + "/new" && Join(folder, CUR) == folder + "/cur";
    assert Join(folder, TMP) == folder + "/tmp";
  }

  lemma JoinDiffers(dir: string, a: string, b: string)
    requires a != b
    ensures Join(dir, a) != Join(dir, b)
  {
    assert Join(dir, a)[|dir| + 1..] == a && Join(dir, b)[|dir| + 1..] == b;
  }

  // ---------- what a delivery may do to the files ----------

  /** The files in `new/`. */
  function InNew(files: Files, base: string): Files { map p | p in files && p.dir == Join(base, NEW) :: files[p] }

  /** No earlier file is touched; what comes on top is a file in `tmp/` and at most one in `new/`, and that
      one holds the complete message. */
  ghost predicate Delivering(before: Files, now: Files, base: string, text: string) {
    && (forall p <- before :: p in now && now[p] == before[p])
    && (forall p <- now :: p in before || p.dir == Join(base, TMP) || (p.dir == Join(base, NEW) && now[p] == text))
    && (forall p, q :: p in now && q in now && p !in before && q !in before && p.dir == q.dir ==> p == q)
  }

  /** The faults of one delivery: failing look-ups, a write that stops early, a failing rename. */
  datatype Faults = Faults(
    lookup: Result<string>, random: Result<seq<byte>>, now: Moment,
    tmpUnclear: bool, denied: bool, cut: Option<nat>, newUnclear: bool, renameFails: bool)

  function BaseOf(path: string, i: nat): string
    requires i <= |path|
  {
    path[..i]
  }

  /** The directories `MkdirAll` creates. */
  function Ancestors(path: string): set<string> {
    set i | 0 <= i <= |path| && (i == |path| || path[i] == '/') :: BaseOf(path, i)
  }

  function Mkdirs(dirs: set<string>, paths: seq<string>): set<string> {
    if paths == [] then dirs else Mkdirs(dirs, paths[..|paths| - 1]) + Ancestors(paths[|paths| - 1])
  }

  function Parts(folder: string): seq<string> { [folder, Join(folder, NEW), Join(folder, CUR), Join(folder, TMP)] }

  predicate IsMaildir(dirs: set<string>, folder: string) {
    Join(folder, NEW) in dirs && Join(folder, CUR) in dirs && Join(folder, TMP) in dirs
  }

  /** What `initExistingMaildir` finds. */
  function Existing(dirs: set<string>, files: Files, folder: string, log: Path): Result<seq<Oldmail>> {
    if IsMaildir(dirs, folder) && log in files then OldmailText.Read(files[log]) else Err
  }

  function LogPath(base: string, oldmailName: string): Path { Path(base, OldmailText.Replace(oldmailName, '/', '.')) }

  datatype Tree = Tree(dirs: set<string>, files: Files)

  /** What `initMaildir` does if no operation fails, and whether it succeeds. */
  function SetUp(t: Tree, base: string, folderName: string, oldmailName: string): (Tree, bool) {
    var folder, log := Join(base, folderName), LogPath(base, oldmailName);
    if folder in t.dirs then (t, Existing(t.dirs, t.files, folder, log).Ok?)
    else (Tree(Mkdirs(t.dirs, Parts(folder)), t.files[log := ""]), true)
  }

  class FileSystem {
    var dirs: set<string>
    var files: Files
    ghost var Seen: seq<Files>

    /** The files as they are now are the last ones seen. */
    ghost predicate Valid()
      reads this
    {
      Seen != [] && Seen[|Seen| - 1] == files
    }

    /** What was seen since there were `n` contents. */
    ghost predicate SeenSince(n: nat, before: Files, base: string, text: string)
      reads this
    {
      forall k :: n <= k < |Seen| ==> Delivering(before, Seen[k], base, text)
    }

    method Put(p: Path, content: string)
      requires Valid()
      modifies this`files, this`Seen
      ensures Valid() && files == old(files)[p := content] && Seen == old(Seen) + [files]
    {
      files := files[p := content];
      Seen := Seen + [files];
    }

    /** `os.WriteFile` on a path that does not exist: create, then write on until the end or a fault. */
    method WriteFile(p: Path, content: string, denied: bool, cut: Option<nat>) returns (ok: bool)
      requires Valid()
      modifies this`files, this`Seen
      ensures Valid() && old(Seen) <= Seen
      ensures forall k :: |old(Seen)| <= k < |Seen| ==> p in Seen[k] && Seen[k] == old(files)[p := Seen[k][p]]
      ensures ok ==> files == old(files)[p := content]
      ensures !ok && files != old(files) ==> p in files && files == old(files)[p := files[p]]
      ensures ok <==> !denied && p.dir in dirs && (cut.Some? ==> cut.value >= |content|)
    {
      if denied || p.dir !in dirs { return false; }
      Put(p, "");
      var n := if cut.Some? && cut.value < |content| then cut.value else |content|;
      for i := 0 to n
        invariant Valid() && old(Seen) <= Seen && files == old(files)[p := content[..i]]
        invariant forall k :: |old(Seen)| <= k < |Seen| ==> p in Seen[k] && Seen[k] == old(files)[p := Seen[k][p]]
      {
        Put(p, content[..i + 1]);
      }
      assert content[..|content|] == content;
      ok := n == |content|;
    }

    method Rename(from: Path, to: Path, fails: bool) returns (ok: bool)
      requires Valid() && from in files
      modifies this`files, this`Seen
      ensures Valid() && (ok <==> !fails && to.dir in dirs)
      ensures ok ==> files == (old(files) - {from})[to := old(files)[from]] && Seen == old(Seen) + [files]
      ensures !ok ==> files == old(files) && Seen == old(Seen)
    {
      if fails || to.dir !in dirs { return false; }
      files := (files - {from})[to := files[from]];
      Seen := Seen + [files];
      ok := true;
    }

    /** `errorIfExists`: a path whose state cannot be found out counts as existing. */
    predicate Occupied(p: Path, unclear: bool)
      reads this
    {
      unclear || p in files
    }

    /** Nothing goes wrong for this message, and the directories are there. */
    predicate Deliverable(text: string, base: string, f: Faults)
      reads this
    {
      && CanName("", f.lookup, f.random) && !f.tmpUnclear && !f.denied && !f.newUnclear && !f.renameFails
      && (f.cut.Some? ==> f.cut.value >= |text|) && Join(base, TMP) in dirs && Join(base, NEW) in dirs
    }

    /** `deliverMessage`. On success there is one more complete message in `new/` and nothing else has
        changed; on failure `new/` is as before; and whenever the machine stops in between, no earlier
        file has been touched and `new/` holds only complete messages. */
    method DeliverMessage(counter: DeliveryCounter, text: string, base: string, f: Faults) returns (ok: bool)
      requires Valid() && counter.Valid()
      modifies this`files, this`Seen, counter
      ensures Valid() && counter.Valid() && old(Seen) <= Seen
      ensures counter.count == old(counter.count) + 1
      ensures ok ==> Deliverable(text, base, f)
      ensures Deliverable(text, base, f) ==> ok || exists p <- old(files) :: CountIn(p.name) == Some(counter.count)
      ensures SeenSince(|old(Seen)|, old(files), base, text)
      ensures ok ==> exists p: Path ::
                && p !in old(files) && p.dir == Join(base, NEW) && files == old(files)[p := text]
                && CountIn(p.name) == Some(counter.count)
      ensures !ok ==> Delivering(old(files), files, base, text) && InNew(files, base) == InNew(old(files), base)
    {
      hide CanName, CountIn, Decoded, PartsOf, Skip;
      JoinDiffers(base, NEW, TMP);
      var name := counter.NewUniqueName("", f.lookup, f.random, f.now);
      if name.Err? { return false; }
      var tmpPath, newPath := Path(Join(base, TMP), name.value), Path(Join(base, NEW), name.value);
      hide Join;
      if Occupied(tmpPath, f.tmpUnclear) { return false; }
      ok := WriteFile(tmpPath, text, f.denied, f.cut);
      if !ok { return; }
      if Occupied(newPath, f.newUnclear) { return false; }
      ok := Rename(tmpPath, newPath, f.renameFails);
      if ok {
        assert files == old(files)[newPath := text];
      }
    }

    /** The loop of the delivering goroutine, core/deliver.go:52-64, without its channels: messages that
        cannot be extracted or delivered are counted. Whatever the faults and wherever the machine stops,
        no file of `new/` is lost or changed, and every additional one is a complete message. */
    method DeliverAll(counter: DeliveryCounter, texts: seq<Result<string>>, base: string, faults: seq<Faults>)
      returns (errCount: nat)
      requires Valid() && counter.Valid() && |faults| == |texts|
      modifies this`files, this`Seen, counter
      ensures Valid() && counter.Valid() && old(Seen) <= Seen
      ensures forall k :: |old(Seen)| <= k < |Seen| ==> OnlyComplete(old(files), Seen[k], base, texts)
      ensures |InNew(files, base)| + errCount == |InNew(old(files), base)| + |texts|
    {
      hide CountIn, Decoded, Skip, CanName;
      errCount := 0;
      for i := 0 to |texts|
        invariant Valid() && counter.Valid() && old(Seen) <= Seen && errCount <= i
        invariant OnlyComplete(old(files), files, base, texts)
        invariant forall k :: |old(Seen)| <= k < |Seen| ==> OnlyComplete(old(files), Seen[k], base, texts)
        invariant |InNew(files, base)| + errCount == |InNew(old(files), base)| + i
      {
        var ok := false;
        ghost var before, seen := files, |Seen|;
        if texts[i].Ok? {
          ok := DeliverMessage(counter, texts[i].value, base, faults[i]);
          forall k | seen <= k < |Seen| ensures OnlyComplete(old(files), Seen[k], base, texts) {
            StillOnlyComplete(old(files), before, Seen[k], base, texts, i);
          }
          if ok {
            OneMoreInNew(before, files, base, texts[i].value);
          } else {
            StillOnlyComplete(old(files), before, files, base, texts, i);
          }
        }
        if !ok {
          errCount := errCount + 1;
        }
      }
    }

    method IsMaildirPath(path: string) returns (yes: bool)
      ensures yes == IsMaildir(dirs, path)
      ensures yes <==> path + "/new" in dirs && path + "/cur" in dirs && path + "/tmp" in dirs
    {
      PartsAreThese(path);
      var names := [NEW, CUR, TMP];
      for i := 0 to 3
        invariant forall k :: 0 <= k < i ==> Join(path, names[k]) in dirs
      {
        if Join(path, names[i]) !in dirs { return false; }
      }
      assert Join(path, names[0]) in dirs && Join(path, names[1]) in dirs && Join(path, names[2]) in dirs;
      yes := true;
    }

    method InitExistingMaildir(base: string, folder: string, oldmailName: string, readFails: bool)
      returns (r: Result<(seq<Oldmail>, Path)>)
      ensures r == Located(if readFails then Err else Existing(dirs, files, folder, Path(base, oldmailName)),
                           Path(base, oldmailName))
    {
      var found := IsMaildirPath(folder);
      if !found { return Err; }
      var log := Path(base, oldmailName);
      var oldmails := OldmailText.ReadOldmail(if log in files then Some(files[log]) else None, readFails, false, false);
      hide OldmailText.Read;
      r := Located(oldmails, log);
    }

    /** `initMaildir`: an existing directory is only looked at. A missing one is created with its parts and
        an empty log, which wipes a log that is there; `failAt` is the first operation that fails, and what
        is left then is also what a crash at this point leaves. */
    method InitMaildir(base: string, folderName: string, oldmailName: string, failAt: Option<nat>, readFails: bool)
      returns (r: Result<(seq<Oldmail>, Path)>)
      requires Valid()
      modifies this
      ensures Valid()
      ensures Join(base, folderName) in old(dirs) ==>
                && dirs == old(dirs) && files == old(files)
                && r == Located(if readFails then Err else
                                  Existing(dirs, files, Join(base, folderName), LogPath(base, oldmailName)),
                                LogPath(base, oldmailName))
      ensures Join(base, folderName) !in old(dirs) && (failAt.Some? ==> failAt.value > 4) ==>
                && dirs == Mkdirs(old(dirs), Parts(Join(base, folderName)))
                && files == old(files)[LogPath(base, oldmailName) := ""]
                && r == if readFails then Err else Ok(([], LogPath(base, oldmailName)))
      ensures Join(base, folderName) !in old(dirs) && failAt.Some? && failAt.value <= 4 ==>
                && dirs == Mkdirs(old(dirs), Parts(Join(base, folderName))[..failAt.value])
                && files == old(files) && r.Err?
      ensures failAt.None? && !readFails ==>
                (Tree(dirs, files), r.Ok?) == SetUp(Tree(old(dirs), old(files)), base, folderName, oldmailName)
    {
      var folder := Join(base, folderName);
      var name := OldmailText.Replace(oldmailName, '/', '.');
      if folder !in dirs {
        for i := 0 to 4
          invariant Valid() && files == old(files) && dirs == Mkdirs(old(dirs), Parts(folder)[..i])
          invariant failAt.Some? ==> i <= failAt.value
        {
          if failAt == Some(i) { return Err; }
          assert Parts(folder)[..i + 1][..i] == Parts(folder)[..i];
          dirs := dirs + Ancestors(Parts(folder)[i]);
        }
        assert Parts(folder)[..4] == Parts(folder);
        MadeIsMaildir(old(dirs), folder, base, folderName);
        if failAt == Some(4) { return Err; }
        var ok := WriteFile(Path(base, name), "", false, None);
      }
      r := InitExistingMaildir(base, folder, name, readFails);
    }
  }

  function Located(r: Result<seq<Oldmail>>, log: Path): Result<(seq<Oldmail>, Path)> {
    match r
    case Err => Err
    case Ok(oldmails) => Ok((oldmails, log))
  }

  // ---------- deliveries ----------

  ghost predicate OnlyComplete(before: Files, now: Files, base: string, texts: seq<Result<string>>) {
    && (forall p <- before :: p in now && now[p] == before[p])
    && (forall p <- now :: p in before || p.dir == Join(base, TMP) || (p.dir == Join(base, NEW) && Ok(now[p]) in texts))
  }

  lemma StillOnlyComplete(start: Files, before: Files, now: Files, base: string, texts: seq<Result<string>>, i: nat)
    requires OnlyComplete(start, before, base, texts) && i < |texts| && texts[i].Ok?
    requires Delivering(before, now, base, texts[i].value)
    ensures OnlyComplete(start, now, base, texts)
  {
    assert texts[i] in texts;
  }

  lemma OneMoreInNew(before: Files, now: Files, base: string, text: string)
    requires exists p: Path :: p !in before && p.dir == Join(base, NEW) && now == before[p := text]
    ensures |InNew(now, base)| == |InNew(before, base)| + 1
  {
    var p: Path :| p !in before && p.dir == Join(base, NEW) && now == before[p := text];
    assert InNew(now, base) == InNew(before, base)[p := text];
  }

  // ---------- set-up ----------

  lemma PathInAncestors(path: string)
    ensures path in Ancestors(path) && forall d <- Ancestors(path) :: |d| <= |path|
  {
    assert BaseOf(path, |path|) == path;
  }

  lemma AncestorsOfPart(folder: string, part: string, d: string)
    requires '/' !in part
    ensures d in Ancestors(Join(folder, part)) <==> d in Ancestors(folder) || d == Join(folder, part)
  {
    var path := Join(folder, part);
    forall i | 0 <= i <= |path| ensures BaseOf(path, i) == if i <= |folder| then BaseOf(folder, i) else path[..i] {
    }
    PathInAncestors(path);
    forall i | |folder| < i < |path| ensures path[i] != '/' {
      assert path[i] == part[i - |folder| - 1];
    }
    if d in Ancestors(folder) {
      var i :| 0 <= i <= |folder| && (i == |folder| || folder[i] == '/') && d == BaseOf(folder, i);
      assert d == BaseOf(path, i) && path[i] == '/';
    }
  }

  /** The directories there are after `n` of the four have been created. */
  lemma {:induction false} Made(dirs: set<string>, folder: string, n: nat, d: string)
    requires n <= 4
    ensures d in Mkdirs(dirs, Parts(folder)[..n]) <==>
            d in dirs || (n > 0 && d in Ancestors(folder)) || d in Parts(folder)[..n]
  {
    if n == 0 {
    } else {
      var paths := Parts(folder)[..n];
      assert paths[..n - 1] == Parts(folder)[..n - 1] && paths == paths[..n - 1] + [paths[n - 1]];
      Made(dirs, folder, n - 1, d);
      PathInAncestors(folder);
      if n > 1 {
        AncestorsOfPart(folder, [NEW, CUR, TMP][n - 2], d);
      }
      hide Ancestors;
    }
  }

  lemma MadeIsMaildir(dirs: set<string>, folder: string, base: string, name: string)
    requires folder == Join(base, name)
    ensures IsMaildir(Mkdirs(dirs, Parts(folder)), folder) && base in Mkdirs(dirs, Parts(folder))
  {
    assert BaseOf(folder, |base|) == base && folder[|base|] == '/';
    var paths := Parts(folder);
    assert paths[..4] == paths;
    Made(dirs, folder, 4, paths[1]);
    Made(dirs, folder, 4, paths[2]);
    Made(dirs, folder, 4, paths[3]);
    Made(dirs, folder, 4, base);
  }

  /** A set-up that stops after `n` of its four directories, by a fault or a crash, is never repaired: from
      the first directory on every later call takes the folder for an existing one, and it succeeds if
      and only if nothing but the log was missing and there is a readable log already. */
  lemma HalfMadeIsStuck(dirs: set<string>, files: Files, folder: string, log: Path, n: nat)
    requires n <= 4 && folder !in dirs && forall part :: Join(folder, part) !in dirs
    ensures folder in Mkdirs(dirs, Parts(folder)[..n]) <==> n > 0
    ensures Existing(Mkdirs(dirs, Parts(folder)[..n]), files, folder, log).Ok? <==>
            n == 4 && log in files && OldmailText.Read(files[log]).Ok?
  {
    var paths := Parts(folder);
    Made(dirs, folder, n, folder);
    PathInAncestors(folder);
    assert paths[..n] == [] || paths[..n][0] == folder;
    forall k | 1 <= k < 4 ensures paths[k] in Mkdirs(dirs, paths[..n]) <==> k < n {
      Made(dirs, folder, n, paths[k]);
      JoinDiffers(folder, NEW, CUR);
      JoinDiffers(folder, NEW, TMP);
      JoinDiffers(folder, CUR, TMP);
      assert k < n ==> paths[..n][k] == paths[k];
    }
    hide Mkdirs, OldmailText.Read;
    assert IsMaildir(Mkdirs(dirs, paths[..n]), folder) <==> n == 4 by {
      assert paths[1] == Join(folder, NEW) && paths[2] == Join(folder, CUR) && paths[3] == Join(folder, TMP);
    }
  }

  datatype Account = Account(server: string, port: int, user: string)

  /** `oldmailFileName`. */
  function LogName(a: Account, folder: string): string {
    "oldmail-" + a.server + "-" + Decimal.Print(a.port) + "-" + a.user + "-" + folder
  }

  /** The parts of a log name from the left. */
  lemma LogNameIs(a: Account, folder: string)
    ensures LogName(a, folder) ==
            "oldmail-" + (a.server + ("-" + (Decimal.Print(a.port) + ("-" + (a.user + ("-" + folder))))))
  {
    hide Decimal.Print;
  }

  /** Two folders of one account have the same log file if and only if their names are the same once path
      separators have become dots. */
  lemma LogIsSharedIff(base: string, a: Account, f: string, g: string)
    ensures LogPath(base, LogName(a, f)) == LogPath(base, LogName(a, g)) <==>
            OldmailText.Replace(f, '/', '.') == OldmailText.Replace(g, '/', '.')
  {
    var account := "oldmail-" + a.server + "-" + Decimal.Print(a.port) + "-" + a.user + "-";
    OldmailText.ReplaceConcat(account, f, '/', '.');
    OldmailText.ReplaceConcat(account, g, '/', '.');
    var start := OldmailText.Replace(account, '/', '.');
    hide Decimal.Print, OldmailText.Replace;
    assert (start + OldmailText.Replace(f, '/', '.'))[|start|..] == OldmailText.Replace(f, '/', '.');
    assert (start + OldmailText.Replace(g, '/', '.'))[|start|..] == OldmailText.Replace(g, '/', '.');
  }
}
