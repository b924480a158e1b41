/** Which messages are still to be downloaded: `getAllMessageUUIDs` (core/imap_client.go) and
    `determineMissingUIDs` (core/ids.go). */
module Ids {
  import opened Common

  predicate OfFolder(uids: seq<UidExt>, folder: int64) { forall u <- uids :: u.folder == folder }
  predicate LogOfFolder(oldmails: seq<Oldmail>, folder: int64) { forall om <- oldmails :: om.uidFolder == folder }

  function Uids(oldmails: seq<Oldmail>): set<int64> { set om <- oldmails :: om.uid }
  function Listed(uids: seq<UidExt>): set<int64> { set u <- uids :: u.msg }

  /** The listed messages that are not known, in the order of the listing. */
  function Missing(known: set<int64>, uids: seq<UidExt>): seq<int64> {
    if uids == [] then [] else
      var last := uids[|uids| - 1].msg;
      Missing(known, uids[..|uids| - 1]) + if last in known then [] else [last]
  }

  predicate Consistent(oldmails: seq<Oldmail>, uids: seq<UidExt>) {
    uids == [] || (OfFolder(uids, uids[0].folder) && LogOfFolder(oldmails, uids[0].folder))
  }

  function Determine(oldmails: seq<Oldmail>, uids: seq<UidExt>): Result<seq<int64>> {
    if Consistent(oldmails, uids) then Ok(Missing(Uids(oldmails), uids)) else Err
  }

  /** Both the listing and the log have to be of one folder. */
  method DetermineMissingUIDs(oldmails: seq<Oldmail>, uids: seq<UidExt>) returns (r: Result<seq<int64>>)
    ensures r == Determine(oldmails, uids)
    ensures r.Err? <==> exists u <- uids :: u.folder != uids[0].folder
                                            || exists om <- oldmails :: om.uidFolder != uids[0].folder
  {
    assert uids != [] ==> uids[0] in uids;
    if |uids| == 0 { return Ok([]); }
    var uidFolder := uids[0].folder;
    for i := 0 to |uids|
      invariant OfFolder(uids[..i], uidFolder)
    {
      if uids[i].folder != uidFolder {
        assert uids[i] in uids;
        return Err;
      }
      assert uids[..i + 1] == uids[..i] + [uids[i]];
    }
    assert uids[..|uids|] == uids;
    for i := 0 to |oldmails|
      invariant LogOfFolder(oldmails[..i], uidFolder)
    {
      if oldmails[i].uidFolder != uidFolder {
        assert oldmails[i] in oldmails;
        return Err;
      }
      assert oldmails[..i + 1] == oldmails[..i] + [oldmails[i]];
    }
    assert oldmails[..|oldmails|] == oldmails;

    var oldmailUIDs := {};
    for i := 0 to |oldmails|
      invariant oldmailUIDs == Uids(oldmails[..i])
    {
      assert oldmails[..i + 1] == oldmails[..i] + [oldmails[i]];
      oldmailUIDs := oldmailUIDs + {oldmails[i].uid};
    }
    assert oldmails[..|oldmails|] == oldmails;

    var missingUIDs := [];
    for i := 0 to |uids|
      invariant missingUIDs == Missing(oldmailUIDs, uids[..i])
    {
      assert uids[..i + 1][..i] == uids[..i];
      if uids[i].msg !in oldmailUIDs {
        missingUIDs := missingUIDs + [uids[i].msg];
      }
    }
    return Ok(missingUIDs);
  }

  /** The missing messages are exactly the listed ones that are not recorded. */
  lemma {:induction false} MissingIsDifference(known: set<int64>, uids: seq<UidExt>)
    ensures forall u :: u in Missing(known, uids) <==> u in Listed(uids) && u !in known
  {
    if uids == [] {
    } else {
      var init, last := uids[..|uids| - 1], uids[|uids| - 1];
      MissingIsDifference(known, init);
      assert uids == init + [last];
      assert Listed(uids) == Listed(init) + {last.msg};
    }
  }

  /** The listing keeps its order: a missing message comes before another one exactly as it was
      listed before it. */
  lemma {:induction false} MissingKeepsOrder(known: set<int64>, uids: seq<UidExt>, a: nat, b: nat)
    returns (i: nat, j: nat)
    requires a < b < |Missing(known, uids)|
    ensures i < j < |uids| && uids[i].msg == Missing(known, uids)[a] && uids[j].msg == Missing(known, uids)[b]
    decreases |uids|
  {
    var init := uids[..|uids| - 1];
    if b < |Missing(known, init)| {
      i, j := MissingKeepsOrder(known, init, a, b);
    } else {
      j := |uids| - 1;
      assert Missing(known, init)[a] in Missing(known, init);
      MissingIsDifference(known, init);
      assert Missing(known, init)[a] in Listed(init);
      var u :| u in init && u.msg == Missing(known, init)[a];
      i :| 0 <= i < |init| && init[i] == u;
    }
  }

  /** What the answers of the server identify, in their order; nil answers are ignored. */
  function Identified(validity: uint32, answers: seq<Option<uint32>>): seq<UidExt> {
    if answers == [] then [] else
      Identified(validity, answers[..|answers| - 1]) +
      match answers[|answers| - 1] { case Some(uid) => [UidExt(validity, uid)] case None => [] }
  }

  lemma {:induction false} IdentifiedAre(validity: uint32, answers: seq<Option<uint32>>)
    ensures OfFolder(Identified(validity, answers), validity)
    ensures forall uid: uint32 :: uid as int64 in Listed(Identified(validity, answers)) <==> Some(uid) in answers
  {
    if answers == [] {
    } else {
      var init, last := answers[..|answers| - 1], answers[|answers| - 1];
      IdentifiedAre(validity, init);
      assert answers == init + [last];
      if last.Some? {
        assert Listed(Identified(validity, answers)) == Listed(Identified(validity, init)) + {last.value as int64};
      }
    }
  }

  lemma IdentifiedOneMore(validity: uint32, answers: seq<Option<uint32>>, answer: Option<uint32>)
    ensures Identified(validity, answers + [answer]) == Identified(validity, answers) +
            match answer { case Some(uid) => [UidExt(validity, uid)] case None => [] }
  {
    assert (answers + [answer])[..|answers|] == answers;
  }

  lemma MissingOneMore(known: set<int64>, uids: seq<UidExt>, u: UidExt)
    ensures Missing(known, uids + [u]) == Missing(known, uids) + if u.msg in known then [] else [u.msg]
  {
    assert (uids + [u])[..|uids|] == uids;
  }

  lemma LastOfBoth<T>(a: seq<T>, b: seq<T>)
    requires b != []
    ensures a + b == (a + b[..|b| - 1]) + [b[|b| - 1]] && b == b[..|b| - 1] + [b[|b| - 1]]
  {
  }

  /** The answers are taken one by one. */
  lemma {:induction false} IdentifiedConcat(validity: uint32, a: seq<Option<uint32>>, b: seq<Option<uint32>>)
    ensures Identified(validity, a + b) == Identified(validity, a) + Identified(validity, b)
  {
    if b == [] {
      assert a + b == a;
    } else {
      var init, last := b[..|b| - 1], b[|b| - 1];
      IdentifiedConcat(validity, a, init);
      hide Identified;
      LastOfBoth(a, b);
      IdentifiedOneMore(validity, a + init, last);
      IdentifiedOneMore(validity, init, last);
      Concats(Identified(validity, a), Identified(validity, init),
              match last { case Some(uid) => [UidExt(validity, uid)] case None => [] });
    }
  }

  /** The listed messages are taken one by one. */
  lemma {:induction false} MissingConcat(known: set<int64>, a: seq<UidExt>, b: seq<UidExt>)
    ensures Missing(known, a + b) == Missing(known, a) + Missing(known, b)
  {
    if b == [] {
      assert a + b == a;
    } else {
      var init, last := b[..|b| - 1], b[|b| - 1];
      MissingConcat(known, a, init);
      hide Missing;
      LastOfBoth(a, b);
      MissingOneMore(known, a + init, last);
      MissingOneMore(known, init, last);
      Concats(Missing(known, a), Missing(known, init), if last.msg in known then [] else [last.msg]);
    }
  }

  /** `getAllMessageUUIDs`: an empty mailbox is not asked. */
  method GetAllMessageUUIDs(messages: nat, validity: uint32, answers: seq<Option<uint32>>)
    returns (uids: seq<UidExt>)
    ensures uids == if messages == 0 then [] else Identified(validity, answers)
    ensures OfFolder(uids, validity)
    ensures messages > 0 ==> forall uid: uint32 :: uid as int64 in Listed(uids) <==> Some(uid) in answers
  {
    uids := [];
    if messages == 0 { return; }
    for i := 0 to |answers|
      invariant uids == Identified(validity, answers[..i])
    {
      assert answers[..i + 1][..i] == answers[..i];
      if answers[i].Some? {
        uids := uids + [UidExt(validity, answers[i].value)];
      }
    }
    assert answers[..|answers|] == answers;
    IdentifiedAre(validity, answers);
  }
}
