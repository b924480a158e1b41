/** The mailbox of the local server, core/srvbackend_mailbox.go:50-230: messages are the files of `new/` and
    `cur/`, in the order of their modification times, numbered from 1. Sets of UIDs, search criteria and
    the update of one list of flags belong to libraries and are parameters. */
module ServedMailbox {
  import opened Common
  import opened Sorting

  /** A file and its modification time. */
  datatype File = File(path: string, time: int)

  /** A directory entry; its information is gone if the file has vanished since. */
  datatype Entry = Entry(path: string, time: Option<int>)

  predicate Older(a: File, b: File) { a.time < b.time }

  function Present(entries: seq<Entry>): seq<File> {
    if entries == [] then [] else
      var last := entries[|entries| - 1];
      Present(entries[..|entries| - 1]) + if last.time.Some? then [File(last.path, last.time.value)] else []
  }

  lemma {:induction false} PresentCounts(entries: seq<Entry>, f: File)
    ensures multiset(Present(entries))[f] == multiset(entries)[Entry(f.path, Some(f.time))]
  {
    if entries == [] {
    } else {
      var init, last := entries[..|entries| - 1], entries[|entries| - 1];
      PresentCounts(init, f);
      assert entries == init + [last];
      assert multiset(entries) == multiset(init) + multiset{last};
    }
  }

  /** What `sort.Slice` promises of the files it has sorted by time. */
  predicate SortedFrom(sorted: seq<File>, files: seq<File>) {
    multiset(sorted) == multiset(files) && Ascending(sorted, Older)
  }

  // ---------- the server ----------

  class Mail {
    const path: string
    const date: int
    const uid: uint32
    var flags: seq<string>

    constructor (file: File, uid: uint32)
      ensures this.path == file.path && date == file.time && this.uid == uid && flags == ["\\Seen"]
    {
      path, date, this.uid, flags := file.path, file.time, uid, ["\\Seen"];
    }
  }

  /** Some of the numbers from 1 to `n`, in ascending order. */
  ghost predicate Picks(found: seq<int>, n: nat, wanted: int -> bool) {
    && (forall i, j :: 0 <= i < j < |found| ==> found[i] < found[j])
    && (forall id :: id in found <==> 1 <= id <= n && wanted(id))
  }

  ghost predicate Serves(m: Mail, file: File, uid: int)
    reads m
  {
    m.path == file.path && m.date == file.time && m.uid == uid && m.flags == ["\\Seen"]
  }

  lemma PickNext(found: seq<int>, n: nat, wanted: int -> bool)
    requires Picks(found, n, wanted)
    ensures Picks(if wanted(n + 1) then found + [n + 1] else found, n + 1, wanted)
  {
    if wanted(n + 1) {
      var more := found + [n + 1];
      forall i | 0 <= i < |found| ensures found[i] < n + 1 {
        assert found[i] in found;
      }
      assert forall id :: id in more <==> id in found || id == n + 1;
    }
  }

  lemma OlderFirst(sorted: seq<File>, mails: seq<Mail>, m: Mail, m': Mail)
    requires |mails| == |sorted| && Ascending(sorted, Older) && m in mails && m' in mails && m.date < m'.date
    requires forall i :: 0 <= i < |mails| ==> mails[i].date == sorted[i].time && mails[i].uid == i + 1
    ensures m.uid < m'.uid
  {
    var i :| 0 <= i < |mails| && mails[i] == m;
    var j :| 0 <= j < |mails| && mails[j] == m';
    EarlierComesFirst(sorted, i, j);
  }

  lemma EarlierComesFirst(sorted: seq<File>, i: nat, j: nat)
    requires Ascending(sorted, Older) && i < |sorted| && j < |sorted| && sorted[i].time < sorted[j].time
    ensures i < j
  {
  }

  class Mailbox {
    var messages: seq<Mail>

    /** UIDs and sequence numbers agree: message `i` has the UID `i + 1`. */
    ghost predicate Valid()
      reads this
    {
      && (forall i :: 0 <= i < |messages| ==> messages[i].uid == i + 1)
      && (forall i, j :: 0 <= i < j < |messages| ==> messages[i] != messages[j])
    }

    /** The files behind the messages, in the order of the UIDs. */
    ghost function Files(): seq<File>
      reads this
    {
      seq(|messages|, i requires 0 <= i < |messages| reads this => File(messages[i].path, messages[i].date))
    }

    constructor ()
      ensures Valid() && messages == []
    {
      messages := [];
    }

    /** The program crashes rather than number more than 2^31-1 messages. */
    method AddMessages(newDir: Result<seq<Entry>>, curDir: Result<seq<Entry>>) returns (ok: bool)
      requires Valid()
      requires newDir.Ok? && curDir.Ok? ==> |Present(newDir.value)| + |Present(curDir.value)| <= MAX_INT32
      modifies this
      ensures Valid() && (ok <==> newDir.Ok? && curDir.Ok?)
      ensures ok ==> SortedFrom(Files(), Present(newDir.value) + Present(curDir.value))
      ensures ok ==> forall f: File ::
                multiset(Files())[f] == multiset(newDir.value + curDir.value)[Entry(f.path, Some(f.time))]
      ensures ok ==> forall m <- messages, m' <- messages :: m.date < m'.date ==> m.uid < m'.uid
      ensures ok ==> forall m <- messages :: m.flags == ["\\Seen"]
      ensures !ok ==> messages == old(messages)
    {
      if newDir.Err? { return false; }
      var files := Gather(newDir.value);
      if curDir.Err? { return false; }
      var moreFiles := Gather(curDir.value);
      files := files + moreFiles;
      var sorted := SortSlice(files, Older);
      SameElements(files, sorted);

      var mails := Number(sorted);
      messages := mails;
      assert Files() == sorted;
      forall f: File
        ensures multiset(Files())[f] == multiset(newDir.value + curDir.value)[Entry(f.path, Some(f.time))]
      {
        PresentCounts(newDir.value, f);
        PresentCounts(curDir.value, f);
        assert multiset(newDir.value + curDir.value) == multiset(newDir.value) + multiset(curDir.value);
      }
      forall m <- messages, m' <- messages | m.date < m'.date ensures m.uid < m'.uid {
        OlderFirst(sorted, mails, m, m');
      }
      ok := true;
    }

    method Number(sorted: seq<File>) returns (mails: seq<Mail>)
      requires |sorted| <= MAX_INT32
      ensures |mails| == |sorted| && fresh(mails)
      ensures forall i :: 0 <= i < |mails| ==> Serves(mails[i], sorted[i], i + 1)
      ensures forall i, j :: 0 <= i < j < |mails| ==> mails[i] != mails[j]
    {
      mails := [];
      for count := 0 to |sorted|
        invariant |mails| == count && fresh(mails)
        invariant forall i :: 0 <= i < count ==> Serves(mails[i], sorted[i], i + 1)
        invariant forall i, j :: 0 <= i < j < count ==> mails[i] != mails[j]
      {
        var mail := new Mail(sorted[count], count + 1);
        mails := mails + [mail];
      }
    }

    method Gather(entries: seq<Entry>) returns (files: seq<File>)
      ensures files == Present(entries)
    {
      files := [];
      for i := 0 to |entries|
        invariant files == Present(entries[..i])
      {
        assert entries[..i + 1][..i] == entries[..i];
        if entries[i].time.Some? {
          files := files + [File(entries[i].path, entries[i].time.value)];
        }
      }
      assert entries[..|entries|] == entries;
    }

    /** The number of messages, the next UID, and every flag some message has. */
    method Status() returns (count: int, uidNext: int, flags: seq<string>)
      requires Valid()
      ensures count == |messages| && forall m <- messages :: m.uid < uidNext
      ensures uidNext == count + 1
      ensures Distinct(flags) && forall flag :: flag in flags <==> exists m <- messages :: flag in m.flags
    {
      flags := [];
      for i := 0 to |messages|
        invariant Distinct(flags)
        invariant forall flag :: flag in flags <==> exists m <- messages[..i] :: flag in m.flags
      {
        ghost var before := flags;
        for j := 0 to |messages[i].flags|
          invariant Distinct(flags)
          invariant forall flag :: flag in flags <==> flag in before || flag in messages[i].flags[..j]
        {
          if messages[i].flags[j] !in flags {
            flags := flags + [messages[i].flags[j]];
          }
          assert messages[i].flags[..j + 1] == messages[i].flags[..j] + [messages[i].flags[j]];
        }
        assert messages[i].flags[..|messages[i].flags|] == messages[i].flags;
        assert messages[..i + 1] == messages[..i] + [messages[i]];
      }
      assert messages[..|messages|] == messages;
      count, uidNext := |messages|, |messages| + 1;
    }

    /** The messages of the set that can be read, each once and in order. */
    method ListMessages(selected: int -> bool, readable: int -> bool) returns (sent: seq<int>)
      ensures Picks(sent, |messages|, id => selected(id) && readable(id))
    {
      sent := [];
      ghost var wanted := id => selected(id) && readable(id);
      for count := 0 to |messages|
        invariant Picks(sent, count, wanted)
      {
        PickNext(sent, count, wanted);
        if selected(count + 1) {
          if readable(count + 1) {
            sent := sent + [count + 1];
          }
        }
      }
    }

    /** The messages that match; one that cannot be matched does not. */
    method SearchMessages(matches: int -> Result<bool>) returns (foundIDs: seq<int>)
      ensures Picks(foundIDs, |messages|, id => matches(id) == Ok(true))
    {
      foundIDs := [];
      ghost var wanted := id => matches(id) == Ok(true);
      for count := 0 to |messages|
        invariant Picks(foundIDs, count, wanted)
      {
        PickNext(foundIDs, count, wanted);
        var ok := matches(count + 1);
        if ok.Ok? {
          if ok.value {
            foundIDs := foundIDs + [count + 1];
          }
        }
      }
    }

    method UpdateMessagesFlags(selected: int -> bool, update: seq<string> -> seq<string>)
      requires Valid()
      modifies messages
      ensures forall m <- messages :: m.flags == if selected(m.uid) then update(old(m.flags)) else old(m.flags)
    {
      for count := 0 to |messages|
        invariant forall i :: 0 <= i < |messages| ==>
                    messages[i].flags == if i < count && selected(i + 1) then update(old(messages[i].flags))
                                         else old(messages[i].flags)
      {
        if selected(count + 1) {
          messages[count].flags := update(messages[count].flags);
        }
      }
    }
  }

  // ---------- which UIDs the messages get ----------

  function Times(files: seq<File>): set<int> { set f <- files :: f.time }

  function Rank(times: set<int>, t: int): nat { |set u | u in times && u < t| }

  predicate DistinctTimes(files: seq<File>) { forall i, j :: 0 <= i < j < |files| ==> files[i].time != files[j].time }

  lemma SortedTimes(sorted: seq<File>, files: seq<File>)
    requires SortedFrom(sorted, files) && DistinctTimes(files)
    ensures Times(sorted) == Times(files)
    ensures forall i, j :: 0 <= i < j < |sorted| ==> sorted[i].time < sorted[j].time
  {
    SameElements(sorted, files);
    DistinctStays(files, sorted);
    forall i, j | 0 <= i < j < |sorted| ensures sorted[i].time < sorted[j].time {
      assert sorted[i] in files && sorted[j] in files;
      var a :| 0 <= a < |files| && files[a] == sorted[i];
      var b :| 0 <= b < |files| && files[b] == sorted[j];
      assert !Older(sorted[j], sorted[i]) && a != b;
    }
  }

  lemma {:induction false} RankOfAscending(sorted: seq<File>, k: nat)
    requires k < |sorted| && forall i, j :: 0 <= i < j < |sorted| ==> sorted[i].time < sorted[j].time
    ensures Rank(Times(sorted), sorted[k].time) == k
  {
    var t := sorted[k].time;
    if k == 0 {
      assert (set u | u in Times(sorted) && u < t) == {};
    } else {
      var t' := sorted[k - 1].time;
      RankOfAscending(sorted, k - 1);
      assert sorted[k - 1] in sorted;
      assert (set u | u in Times(sorted) && u < t) == (set u | u in Times(sorted) && u < t') + {t'};
    }
  }

  /** With distinct modification times, a message has the UID n + 1 if n messages are older: the order of the
      directory listings does not matter, nor whether the file lies in `new/` or in `cur/`. */
  lemma UidIsRank(sorted: seq<File>, files: seq<File>, k: nat)
    requires SortedFrom(sorted, files) && DistinctTimes(files) && k < |sorted|
    ensures Rank(Times(files), sorted[k].time) == k
  {
    SortedTimes(sorted, files);
    RankOfAscending(sorted, k);
  }

  /** How many of the older messages are in the first mailbox and not in the second. */
  function Gone(times: set<int>, times': set<int>, t: int): nat { |set u | u in times && u !in times' && u < t| }

  /** From one start of the server to the next, whatever messages are added or removed, a message keeps its UID
      if and only if as many older messages have come as have gone. */
  lemma UidIsKeptIff(files: seq<File>, sorted: seq<File>, i: nat, files': seq<File>, sorted': seq<File>, j: nat)
    requires SortedFrom(sorted, files) && SortedFrom(sorted', files')
    requires DistinctTimes(files) && DistinctTimes(files')
    requires i < |sorted| && j < |sorted'| && sorted[i].time == sorted'[j].time
    ensures i == j <==>
            Gone(Times(files'), Times(files), sorted[i].time) == Gone(Times(files), Times(files'), sorted[i].time)
  {
    UidIsRank(sorted, files, i);
    UidIsRank(sorted', files', j);
    RanksDiffer(Times(files), Times(files'), sorted[i].time);
  }

  lemma RanksDiffer(times: set<int>, times': set<int>, t: int)
    ensures Rank(times, t) - Gone(times, times', t) == Rank(times', t) - Gone(times', times, t)
  {
    var older, older' := set u | u in times && u < t, set u | u in times' && u < t;
    var gone, come := set u | u in times && u !in times' && u < t, set u | u in times' && u !in times && u < t;
    assert older == older * older' + gone;
    assert older' == older * older' + come;
    assert |older| == |older * older'| + |gone|;
    assert |older'| == |older * older'| + |come|;
  }

  /** With messages added only, that is: if and only if no added message is older. */
  lemma UidSurvivesAdditionsIff(files: seq<File>, sorted: seq<File>, i: nat,
                                files': seq<File>, sorted': seq<File>, j: nat)
    requires SortedFrom(sorted, files) && SortedFrom(sorted', files')
    requires DistinctTimes(files) && DistinctTimes(files') && Times(files) <= Times(files')
    requires i < |sorted| && j < |sorted'| && sorted[i].time == sorted'[j].time
    ensures i == j <==> forall u <- Times(files') :: u in Times(files) || sorted[i].time <= u
  {
    hide SortedFrom, DistinctTimes, Times;
    var t, times, times' := sorted[i].time, Times(files), Times(files');
    UidIsKeptIff(files, sorted, i, files', sorted', j);
    assert (set u | u in times && u !in times' && u < t) == {};
    var come := set u | u in times' && u !in times && u < t;
    assert |come| == 0 <==> come == {};
    assert come == {} <==> forall u <- times' :: u in times || t <= u by {
      if come == {} {
        forall u <- times' ensures u in times || t <= u {
          assert u !in come;
        }
      }
    }
  }

  // ---------- without distinct times ----------

  function Sorted(files: seq<File>): seq<File> {
    if files == [] then [] else Insert(files[|files| - 1], Sorted(files[..|files| - 1]), Older)
  }

  lemma {:induction false} SortedIsSorted(files: seq<File>)
    ensures SortedFrom(Sorted(files), files)
  {
    if files == [] {
    } else {
      var init, last := files[..|files| - 1], files[|files| - 1];
      SortedIsSorted(init);
      InsertAdds(last, Sorted(init), Older);
      InsertKeeps(last, Sorted(init), Older);
      assert files == init + [last];
    }
  }

  lemma TieIsOpen(sorted: seq<File>, files: seq<File>, p: nat, q: nat)
    requires SortedFrom(sorted, files) && p < q < |sorted| && sorted[p].time == sorted[q].time
    ensures SortedFrom(sorted[p := sorted[q]][q := sorted[p]], files)
  {
    var swapped := sorted[p := sorted[q]][q := sorted[p]];
    assert forall k :: 0 <= k < |sorted| ==> swapped[k].time == sorted[k].time;
    assert forall i, j :: 0 <= i < j < |sorted| ==> !Older(sorted[j], sorted[i]);
  }

  lemma DistinctTimesFix(files: seq<File>, a: seq<File>, b: seq<File>)
    requires DistinctTimes(files) && SortedFrom(a, files) && SortedFrom(b, files)
    ensures a == b
  {
    SortedTimes(a, files);
    SortedTimes(b, files);
    SameElements(a, files);
    SameElements(b, files);
    AscendingIsUnique(a, b, Older);
  }

  lemma TieMakesTwo(files: seq<File>, i: nat, j: nat) returns (a: seq<File>, b: seq<File>)
    requires i < j < |files| && files[i].time == files[j].time && files[i] != files[j]
    ensures SortedFrom(a, files) && SortedFrom(b, files) && a != b
  {
    a := Sorted(files);
    SortedIsSorted(files);
    SameElements(a, files);
    hide SortedFrom;
    assert files[i] in a && files[j] in a;
    var p :| 0 <= p < |a| && a[p] == files[i];
    var q :| 0 <= q < |a| && a[q] == files[j];
    var lo, hi := if p < q then p else q, if p < q then q else p;
    TieIsOpen(a, files, lo, hi);
    b := a[lo := a[hi]][hi := a[lo]];
    assert b[hi] == a[lo] != a[hi];
  }

  /** The promise of `sort.Slice` fixes the UIDs if and only if no two messages have the same time. */
  lemma UidsAreFixedIff(files: seq<File>)
    requires Distinct(files)
    ensures (forall a, b :: SortedFrom(a, files) && SortedFrom(b, files) ==> a == b) <==> DistinctTimes(files)
  {
    if DistinctTimes(files) {
      forall a, b | SortedFrom(a, files) && SortedFrom(b, files) ensures a == b {
        DistinctTimesFix(files, a, b);
      }
    } else {
      var i, j :| 0 <= i < j < |files| && files[i].time == files[j].time;
      var a, b := TieMakesTwo(files, i, j);
      hide SortedFrom;
    }
  }
}
