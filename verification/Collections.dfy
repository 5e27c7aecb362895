/** Collection updates (internal/library/service.go, internal/dbgen/taxonomy.sql.go), in one
    transaction, while other transactions delete documents. Document identifiers arrive as text:
    None is one that does not parse. */
module Collections {
  import opened Schema
  import Text

  const MAX_NAME := 100

  datatype Item = Item(owner: Uuid, deleted: bool)
  datatype Collection = Collection(owner: Uuid, name: string, description: string)

  /** A row of collection_documents. */
  datatype Member = Member(collection: Uuid, document: Uuid)

  predicate OwnedLive(documents: map<Uuid, Item>, owner: Uuid, d: Uuid) {
    d in documents && documents[d].owner == owner && !documents[d].deleted
  }

  function MembersOf(members: set<Member>, c: Uuid): set<Uuid> { set m | m in members && m.collection == c :: m.document }

  // ----- parseDocumentIDs -----

  /** The identifiers in order of first appearance, if all of them parse. */
  function Parsed(raw: seq<Option<Uuid>>): Option<seq<Uuid>> {
    if raw == [] then Some([])
    else
      var n := |raw| - 1;
      var before :- Parsed(raw[..n]);
      var id :- raw[n];
      Some(if id in before then before else before + [id])
  }

  method ParseDocumentIDs(raw: seq<Option<Uuid>>) returns (ids: Option<seq<Uuid>>)
    ensures ids == Parsed(raw)
  {
    var result: seq<Uuid> := [];
    var seen: set<Uuid> := {};
    for i := 0 to |raw|
      invariant Parsed(raw[..i]) == Some(result) && seen == Elements(result)
    {
      assert raw[..i + 1][..i] == raw[..i];
      if raw[i].None? {
        UnparsedStays(raw, i + 1);
        return None;
      }
      if raw[i].value !in seen {
        seen := seen + {raw[i].value};
        result := result + [raw[i].value];
      }
    }
    assert raw[..|raw|] == raw;
    return Some(result);
  }

  lemma {:induction false} UnparsedStays(raw: seq<Option<Uuid>>, i: nat)
    requires i <= |raw| && Parsed(raw[..i]).None?
    ensures Parsed(raw).None?
    decreases |raw| - i
  {
    if i < |raw| {
      assert raw[..i + 1][..i] == raw[..i];
      UnparsedStays(raw, i + 1);
    } else {
      assert raw[..i] == raw;
    }
  }

  lemma {:induction false} ParsedIsDistinct(raw: seq<Option<Uuid>>)
    requires Parsed(raw).Some?
    ensures Distinct(Parsed(raw).value)
    ensures forall id :: id in Parsed(raw).value <==> Some(id) in raw
  {
    if raw != [] {
      var n := |raw| - 1;
      ParsedIsDistinct(raw[..n]);
      assert raw == raw[..n] + [raw[n]];
    }
  }

  /** They come in the order in which they are first named. */
  lemma {:induction false} ParsedInOrder(raw: seq<Option<Uuid>>, a: nat, b: nat)
    requires Parsed(raw).Some? && a < b < |Parsed(raw).value|
    ensures exists i :: 0 <= i < |raw| && raw[i] == Some(Parsed(raw).value[a])
                        && forall j :: 0 <= j <= i ==> raw[j] != Some(Parsed(raw).value[b])
  {
    var n := |raw| - 1;
    var before := Parsed(raw[..n]).value;
    ParsedIsDistinct(raw[..n]);
    if b < |before| {
      ParsedInOrder(raw[..n], a, b);
      var i :| 0 <= i < n && raw[..n][i] == Some(before[a]) && forall j :: 0 <= j <= i ==> raw[..n][j] != Some(before[b]);
      assert forall j :: 0 <= j <= i ==> raw[j] == raw[..n][j];
    } else {
      assert before[a] in before;
      var i :| 0 <= i < n && raw[..n][i] == Some(before[a]);
      assert forall j :: 0 <= j <= i ==> raw[j] == raw[..n][j];
    }
  }

  /** One that does not parse makes the whole list invalid, and nothing else does. */
  lemma {:induction false} ParsedExactly(raw: seq<Option<Uuid>>)
    ensures Parsed(raw).Some? <==> None !in raw
  {
    if raw != [] {
      var n := |raw| - 1;
      ParsedExactly(raw[..n]);
      assert raw == raw[..n] + [raw[n]];
    }
  }

  // ----- validateOwnedDocuments -----

  function CountOwned(documents: map<Uuid, Item>, owner: Uuid, ids: seq<Uuid>): nat {
    |set d | d in documents && OwnedLive(documents, owner, d) && d in ids|
  }

  lemma DistinctSplit(ids: seq<Uuid>)
    requires ids != []
    ensures Distinct(ids) <==> Distinct(ids[..|ids| - 1]) && ids[|ids| - 1] !in ids[..|ids| - 1]
  {
    var n := |ids| - 1;
    assert forall i :: 0 <= i < n ==> ids[..n][i] == ids[i];
  }

  lemma {:induction false} ElementsCount(ids: seq<Uuid>)
    ensures |Elements(ids)| <= |ids|
    ensures |Elements(ids)| == |ids| <==> Distinct(ids)
  {
    if ids == [] {
      assert Elements(ids) == {};
    } else {
      var n := |ids| - 1;
      ElementsCount(ids[..n]);
      DistinctSplit(ids);
      assert ids == ids[..n] + [ids[n]];
      assert Elements(ids) == Elements(ids[..n]) + {ids[n]};
      if ids[n] in ids[..n] {
        assert Elements(ids) == Elements(ids[..n]);
      }
    }
  }

  /** Counting rows tells exactly whether the list names owned live documents, each once. */
  lemma CountCheck(documents: map<Uuid, Item>, owner: Uuid, ids: seq<Uuid>)
    ensures CountOwned(documents, owner, ids) == |ids| <==>
            Distinct(ids) && forall d :: d in ids ==> OwnedLive(documents, owner, d)
  {
    var owned := set d | d in documents && OwnedLive(documents, owner, d) && d in ids;
    assert owned <= Elements(ids);
    ElementsCount(ids);
    SubsetSize(owned, Elements(ids));
    if forall d :: d in ids ==> OwnedLive(documents, owner, d) {
      assert owned == Elements(ids);
    }
    if CountOwned(documents, owner, ids) == |ids| {
      assert owned == Elements(ids);
      forall d | d in ids ensures OwnedLive(documents, owner, d) {
        assert d in Elements(ids);
      }
    }
  }

  lemma {:induction false} SubsetSize(a: set<Uuid>, b: set<Uuid>)
    requires a <= b
    ensures |a| <= |b| && (|a| == |b| ==> a == b)
  {
    assert |b| == |a| + |b - a| by {
      assert b == a + (b - a);
    }
    if |a| == |b| {
      assert b - a == {};
    }
  }

  /** Lists that pass together have nothing in common. */
  lemma AddedAndRemovedAreDisjoint(documents: map<Uuid, Item>, owner: Uuid, added: seq<Uuid>, removed: seq<Uuid>)
    requires CountOwned(documents, owner, added + removed) == |added + removed|
    ensures Elements(added) !! Elements(removed) && Distinct(added) && Distinct(removed)
  {
    CountCheck(documents, owner, added + removed);
    var all := added + removed;
    forall i, j | 0 <= i < |added| && 0 <= j < |removed| ensures added[i] != removed[j] {
      assert all[i] == added[i] && all[|added| + j] == removed[j];
    }
    forall i, j | 0 <= i < j < |added| ensures added[i] != added[j] {
      assert all[i] == added[i] && all[j] == added[j];
    }
    forall i, j | 0 <= i < j < |removed| ensures removed[i] != removed[j] {
      assert all[|added| + i] == removed[i] && all[|added| + j] == removed[j];
    }
  }

  // ----- UpdateCollection -----

  function ValidName(raw: string): Option<string> {
    var name := Text.Trim(raw);
    if name == "" || |name| > MAX_NAME then None else Some(name)
  }

  /** A name has 1 to 100 runes once it is trimmed. */
  lemma NameByLength(raw: string)
    ensures ValidName(raw) == if 1 <= |Text.Trim(raw)| <= 100 then Some(Text.Trim(raw)) else None
  {
  }

  /** UNIQUE (owner_id, name) */
  ghost predicate NamesUnique(collections: map<Uuid, Collection>) {
    forall a, b :: a in collections && b in collections
                   && collections[a].owner == collections[b].owner && collections[a].name == collections[b].name ==>
      a == b
  }

  lemma NoTwoAlike(collections: map<Uuid, Collection>)
    ensures NamesUnique(collections) <==>
            forall a, b :: a in collections && b in collections && a != b ==>
              collections[a].owner != collections[b].owner || collections[a].name != collections[b].name
  {
  }

  /** What a request may ask for. */
  ghost predicate ValidChange(documents: map<Uuid, Item>, owner: Uuid, rawAdded: seq<Option<Uuid>>, rawRemoved: seq<Option<Uuid>>) {
    && Parsed(rawAdded).Some? && Parsed(rawRemoved).Some?
    && var added, removed := Elements(Parsed(rawAdded).value), Elements(Parsed(rawRemoved).value);
       added !! removed && forall d :: d in added + removed ==> OwnedLive(documents, owner, d)
  }

  function NewName(currentName: string, newName: Option<string>): string {
    if newName.Some? then Text.Trim(newName.value) else currentName
  }

  /** When the update succeeds: the collection exists, the lists are valid and the new name is free. */
  ghost predicate Updatable(documents: map<Uuid, Item>, collections: map<Uuid, Collection>, owner: Uuid, currentName: string,
                            newName: Option<string>, rawAdded: seq<Option<Uuid>>, rawRemoved: seq<Option<Uuid>>)
  {
    && (newName.Some? ==> ValidName(newName.value).Some?)
    && ValidChange(documents, owner, rawAdded, rawRemoved)
    && exists c :: c in collections && collections[c].owner == owner && collections[c].name == currentName
                   && NameFree(collections, c, NewName(currentName, newName))
  }

  ghost predicate NameFree(collections: map<Uuid, Collection>, c: Uuid, name: string)
    requires c in collections
  {
    forall x :: x in collections && x != c ==> !(collections[x].owner == collections[c].owner && collections[x].name == name)
  }

  /** What an update may do: rename a collection of the owner to a valid name that no other collection of the owner
      has, or keep its name, and change it by identifiers that parse, are in one list only, and name live
      documents of the owner. */
  lemma UpdatableExactly(documents: map<Uuid, Item>, collections: map<Uuid, Collection>, owner: Uuid, currentName: string,
                         newName: Option<string>, rawAdded: seq<Option<Uuid>>, rawRemoved: seq<Option<Uuid>>)
    ensures Updatable(documents, collections, owner, currentName, newName, rawAdded, rawRemoved) <==>
            && (newName.Some? ==> 1 <= |Text.Trim(newName.value)| <= 100)
            && None !in rawAdded && None !in rawRemoved
            && (forall d :: !(Some(d) in rawAdded && Some(d) in rawRemoved))
            && (forall d :: Some(d) in rawAdded || Some(d) in rawRemoved ==>
                  d in documents && documents[d].owner == owner && !documents[d].deleted)
            && exists c :: c in collections && collections[c].owner == owner && collections[c].name == currentName
                           && forall x :: x in collections && x != c && collections[x].owner == owner ==>
                                collections[x].name != if newName.Some? then Text.Trim(newName.value) else currentName
  {
    ParsedExactly(rawAdded);
    ParsedExactly(rawRemoved);
    if None !in rawAdded && None !in rawRemoved {
      ChangeByNames(documents, owner, rawAdded, rawRemoved);
    }
  }

  lemma ChangeByNames(documents: map<Uuid, Item>, owner: Uuid, rawAdded: seq<Option<Uuid>>, rawRemoved: seq<Option<Uuid>>)
    requires Parsed(rawAdded).Some? && Parsed(rawRemoved).Some?
    ensures ValidChange(documents, owner, rawAdded, rawRemoved) <==>
            && (forall d :: !(Some(d) in rawAdded && Some(d) in rawRemoved))
            && (forall d :: Some(d) in rawAdded || Some(d) in rawRemoved ==>
                  d in documents && documents[d].owner == owner && !documents[d].deleted)
  {
    ParsedIsDistinct(rawAdded);
    ParsedIsDistinct(rawRemoved);
    var added, removed := Elements(Parsed(rawAdded).value), Elements(Parsed(rawRemoved).value);
    forall d ensures (d in added <==> Some(d) in rawAdded) && (d in removed <==> Some(d) in rawRemoved) {
    }
    assert forall d :: d in added + removed <==> Some(d) in rawAdded || Some(d) in rawRemoved;
    assert added !! removed <==> forall d :: !(d in added && d in removed);
  }

  // ----- the statements of the update, and what commits between them -----

  /** A deletion or a withdrawal of another transaction. */
  datatype Deletion = Removal(document: Uuid) | Withdrawal(account: Uuid)

  /** The tables as the update sees them, and the rows that it has inserted and nobody else sees. */
  datatype View = View(documents: map<Uuid, Item>, members: set<Member>, own: set<Member>)

  /** A removal takes the rows of its document along, a withdrawal leaves them. */
  function Committed(s: View, x: Deletion): View {
    match x
    case Removal(d) =>
      if d in s.documents && !s.documents[d].deleted then
        s.(documents := s.documents[d := s.documents[d].(deleted := true)],
           members := set m | m in s.members && (m.document != d || m in s.own))
      else s
    case Withdrawal(a) =>
      s.(documents := map d | d in s.documents ::
           if s.documents[d].owner == a then s.documents[d].(deleted := true) else s.documents[d])
  }

  /** A removal deletes a live document with the rows that the update has not inserted itself; a withdrawal deletes
      all documents of the account, and no rows. */
  lemma CommittedExactly(s: View, d: Uuid, a: Uuid)
    ensures var t := Committed(s, Removal(d));
            if d !in s.documents || s.documents[d].deleted then t == s
            else
              && t.documents == s.documents[d := Item(s.documents[d].owner, true)] && t.own == s.own
              && forall m :: m in t.members <==> m in s.members && (m.document == d ==> m in s.own)
    ensures var t := Committed(s, Withdrawal(a));
            && t.members == s.members && t.own == s.own && t.documents.Keys == s.documents.Keys
            && forall x :: x in s.documents ==>
                 t.documents[x] == Item(s.documents[x].owner, s.documents[x].deleted || s.documents[x].owner == a)
  {
  }

  function AllCommitted(s: View, xs: seq<Deletion>): View {
    if xs == [] then s else Committed(AllCommitted(s, xs[..|xs| - 1]), xs[|xs| - 1])
  }

  datatype Statement = Include(document: Uuid) | Exclude(document: Uuid)

  /** INSERT ... SELECT with both owners checked, ON CONFLICT DO NOTHING; DELETE ... USING. The collection
      is one of the owner. The statement sees the documents as they were when it began. If its row is there,
      and a transaction in progress deletes it, the insert waits: it inserts the row if that transaction
      commits, with whatever else commits meanwhile. */
  function Executed(s: View, c: Uuid, owner: Uuid, statement: Statement, meanwhile: seq<Deletion>): View {
    var t := AllCommitted(s, meanwhile);
    match statement
    case Include(d) =>
      var row := Member(c, d);
      if OwnedLive(s.documents, owner, d) && row !in t.members then t.(members := t.members + {row}, own := t.own + {row})
      else t
    case Exclude(d) =>
      if d in s.documents && s.documents[d].owner == owner then t.(members := t.members - {Member(c, d)}) else t
  }

  /** An insert adds the row of a document that was live and the owner's when it began, if the row is not there when
      it ends; a deletion takes the row of a document of the owner, live or not. */
  lemma ExecutedExactly(s: View, c: Uuid, owner: Uuid, d: Uuid, meanwhile: seq<Deletion>)
    ensures var t, u, row := AllCommitted(s, meanwhile), Executed(s, c, owner, Include(d), meanwhile), Member(c, d);
            && u.documents == t.documents
            && var adds := d in s.documents && s.documents[d].owner == owner && !s.documents[d].deleted && row !in t.members;
               && u.members == (if adds then t.members + {row} else t.members)
               && u.own == (if adds then t.own + {row} else t.own)
    ensures var t, u := AllCommitted(s, meanwhile), Executed(s, c, owner, Exclude(d), meanwhile);
            && u.documents == t.documents && u.own == t.own
            && u.members == (if d in s.documents && s.documents[d].owner == owner then t.members - {Member(c, d)} else t.members)
  {
  }

  /** What others commit: batch 2n before statement n begins, batch 2n + 1 before it ends, and one more
      before the commit. There is nothing where the sequence ends. */
  type Schedule = seq<seq<Deletion>>

  function At(others: Schedule, n: nat): seq<Deletion> {
    if n < |others| then others[n] else []
  }

  /** Statement n, with what others commit before and during it. */
  function Stepped(s: View, c: Uuid, owner: Uuid, statement: Statement, others: Schedule, n: nat): View {
    Executed(AllCommitted(s, At(others, 2 * n)), c, owner, statement, At(others, 2 * n + 1))
  }

  /** After n statements. */
  function After(s: View, c: Uuid, owner: Uuid, statements: seq<Statement>, others: Schedule, n: nat): View
    requires n <= |statements|
  {
    if n == 0 then s
    else Stepped(After(s, c, owner, statements, others, n - 1), c, owner, statements[n - 1], others, n - 1)
  }

  function Statements(added: seq<Uuid>, removed: seq<Uuid>): (r: seq<Statement>)
    ensures |r| == |added| + |removed|
    ensures forall i :: 0 <= i < |added| ==> r[i] == Include(added[i])
    ensures forall i :: 0 <= i < |removed| ==> r[|added| + i] == Exclude(removed[i])
  {
    seq(|added|, i requires 0 <= i < |added| => Include(added[i])) +
    seq(|removed|, i requires 0 <= i < |removed| => Exclude(removed[i]))
  }

  /** The tables when the update commits. */
  function Outcome(s: View, c: Uuid, owner: Uuid, added: seq<Uuid>, removed: seq<Uuid>, others: Schedule): View {
    var n := |added| + |removed|;
    AllCommitted(After(s, c, owner, Statements(added, removed), others, n), At(others, 2 * n))
  }

  // ----- what becomes of one document -----

  /** All that others have committed in the first n batches. */
  function Before(others: Schedule, n: nat): seq<Deletion> {
    if n == 0 then [] else Before(others, n - 1) + At(others, n - 1)
  }

  predicate Hits(x: Deletion, d: Uuid, account: Uuid) { x == Removal(d) || x == Withdrawal(account) }

  /** The deletions delete a document exactly if one of them hits it. */
  predicate Hit(xs: seq<Deletion>, d: Uuid, account: Uuid) {
    exists i :: 0 <= i < |xs| && Hits(xs[i], d, account)
  }

  /** They take its rows along exactly if the first to hit it is a removal. */
  predicate Dropped(xs: seq<Deletion>, d: Uuid, account: Uuid) {
    exists i :: 0 <= i < |xs| && xs[i] == Removal(d) && !Hit(xs[..i], d, account)
  }

  lemma HitMore(xs: seq<Deletion>, ys: seq<Deletion>, d: Uuid, account: Uuid)
    ensures Hit(xs + ys, d, account) <==> Hit(xs, d, account) || Hit(ys, d, account)
  {
    if i :| 0 <= i < |xs| && Hits(xs[i], d, account) {
      assert (xs + ys)[i] == xs[i];
    }
    if i :| 0 <= i < |ys| && Hits(ys[i], d, account) {
      assert (xs + ys)[|xs| + i] == ys[i];
    }
  }

  lemma DroppedMore(xs: seq<Deletion>, ys: seq<Deletion>, d: Uuid, account: Uuid)
    ensures Dropped(xs + ys, d, account) <==> Dropped(xs, d, account) || (!Hit(xs, d, account) && Dropped(ys, d, account))
  {
    var all := xs + ys;
    if i :| 0 <= i < |xs| && xs[i] == Removal(d) && !Hit(xs[..i], d, account) {
      assert all[i] == xs[i] && all[..i] == xs[..i];
    }
    if i :| 0 <= i < |ys| && ys[i] == Removal(d) && !Hit(ys[..i], d, account) && !Hit(xs, d, account) {
      assert all[|xs| + i] == ys[i] && all[..|xs| + i] == xs + ys[..i];
      HitMore(xs, ys[..i], d, account);
    }
    if i :| 0 <= i < |all| && all[i] == Removal(d) && !Hit(all[..i], d, account) {
      if i < |xs| {
        assert xs[i] == all[i] && all[..i] == xs[..i];
      } else {
        assert ys[i - |xs|] == all[i] && all[..i] == xs + ys[..i - |xs|];
        HitMore(xs, ys[..i - |xs|], d, account);
      }
    }
  }

  predicate LiveItem(s: View, d: Uuid) { d in s.documents && !s.documents[d].deleted }

  /** The document of a row is live, the row is there, and the update has inserted it. */
  datatype Row = Row(live: bool, present: bool, own: bool)

  function RowOf(s: View, m: Member): Row { Row(LiveItem(s, m.document), m in s.members, m in s.own) }

  /** What deletions make of a row, if they hit its document and drop its rows. */
  function Struck(r: Row, hit: bool, dropped: bool): Row {
    Row(r.live && !hit, r.present && (r.own || !(r.live && dropped)), r.own)
  }

  function StruckBy(r: Row, xs: seq<Deletion>, d: Uuid, account: Uuid): Row {
    Struck(r, Hit(xs, d, account), Dropped(xs, d, account))
  }

  ghost predicate OwnerKept(s: View, t: View, d: Uuid)
    requires d in s.documents
  {
    d in t.documents && t.documents[d].owner == s.documents[d].owner
  }

  lemma CommittedRow(s: View, x: Deletion, m: Member)
    requires m.document in s.documents
    ensures var t, d := Committed(s, x), m.document;
            OwnerKept(s, t, d) && RowOf(t, m) == Struck(RowOf(s, m), Hits(x, d, s.documents[d].owner), x == Removal(d))
  {
  }

  lemma {:induction false} AllCommittedRow(s: View, xs: seq<Deletion>, m: Member)
    requires m.document in s.documents
    ensures var t, d := AllCommitted(s, xs), m.document;
            OwnerKept(s, t, d) && RowOf(t, m) == StruckBy(RowOf(s, m), xs, d, s.documents[d].owner)
  {
    if xs != [] {
      var d, account := m.document, s.documents[m.document].owner;
      var first, last := xs[..|xs| - 1], xs[|xs| - 1];
      assert xs == first + [last];
      AllCommittedRow(s, first, m);
      CommittedRow(AllCommitted(s, first), last, m);
      StruckMore(RowOf(s, m), first, [last], d, account);
      assert Hit([last], d, account) <==> Hits(last, d, account) by {
        assert [last][0] == last;
      }
      assert Dropped([last], d, account) <==> last == Removal(d) by {
        assert [last][0] == last && [last][..0] == [];
      }
    }
  }

  lemma StruckMore(r: Row, xs: seq<Deletion>, ys: seq<Deletion>, d: Uuid, account: Uuid)
    ensures StruckBy(StruckBy(r, xs, d, account), ys, d, account) == StruckBy(r, xs + ys, d, account)
  {
    HitMore(xs, ys, d, account);
    DroppedMore(xs, ys, d, account);
  }

  /** A statement on the row, and whether its document was live when the statement began. */
  function Written(r: Row, live: bool, statement: Statement): Row {
    match statement
    case Include(_) => if live && !r.present then r.(present := true, own := true) else r
    case Exclude(_) => r.(present := false)
  }

  /** Statement n, if it is one on the row, with what others commit before and during it. */
  function SteppedTo(r: Row, statement: Option<Statement>, others: Schedule, n: nat, d: Uuid, account: Uuid): Row {
    var begun := StruckBy(r, At(others, 2 * n), d, account);
    var ended := StruckBy(begun, At(others, 2 * n + 1), d, account);
    if statement.Some? then Written(ended, begun.live, statement.value) else ended
  }

  /** The statement is one on the row. */
  predicate Names(statement: Statement, c: Uuid, m: Member) { m.collection == c && statement.document == m.document }

  lemma ExecutedRow(s: View, c: Uuid, owner: Uuid, statement: Statement, meanwhile: seq<Deletion>, m: Member)
    requires m.document in s.documents
    requires Names(statement, c, m) ==> s.documents[m.document].owner == owner
    ensures var t, u := AllCommitted(s, meanwhile), Executed(s, c, owner, statement, meanwhile);
            && u.documents == t.documents
            && RowOf(u, m) == if Names(statement, c, m) then Written(RowOf(t, m), RowOf(s, m).live, statement) else RowOf(t, m)
  {
  }

  lemma SteppedRow(s: View, c: Uuid, owner: Uuid, statement: Statement, others: Schedule, n: nat, m: Member)
    requires m.document in s.documents
    requires Names(statement, c, m) ==> s.documents[m.document].owner == owner
    ensures var t, d := Stepped(s, c, owner, statement, others, n), m.document;
            && OwnerKept(s, t, d)
            && RowOf(t, m) == SteppedTo(RowOf(s, m), if Names(statement, c, m) then Some(statement) else None,
                                        others, n, d, s.documents[d].owner)
  {
    var begun := AllCommitted(s, At(others, 2 * n));
    AllCommittedRow(s, At(others, 2 * n), m);
    AllCommittedRow(begun, At(others, 2 * n + 1), m);
    ExecutedRow(begun, c, owner, statement, At(others, 2 * n + 1), m);
  }

  /** Each document is named by one statement at most. */
  ghost predicate NamedOnce(statements: seq<Statement>) {
    forall i, j :: 0 <= i < j < |statements| ==> statements[i].document != statements[j].document
  }

  /** One of the first n statements includes the document, and nothing has hit it when that begins. */
  ghost predicate IncludedBy(statements: seq<Statement>, others: Schedule, n: nat, d: Uuid, account: Uuid)
    requires n <= |statements|
  {
    exists i: nat :: i < n && statements[i] == Include(d) && !Hit(Before(others, 2 * i + 1), d, account)
  }

  /** Statement i begins before anything has hit the document, and ends after its rows have been dropped. */
  predicate DroppedDuring(others: Schedule, i: nat, d: Uuid, account: Uuid) {
    !Hit(Before(others, 2 * i + 1), d, account) && Dropped(At(others, 2 * i + 1), d, account)
  }

  ghost predicate InsertedAgain(statements: seq<Statement>, others: Schedule, n: nat, d: Uuid, account: Uuid)
    requires n <= |statements|
  {
    exists i: nat :: i < n && statements[i] == Include(d) && DroppedDuring(others, i, d, account)
  }

  ghost predicate ExcludedBy(statements: seq<Statement>, n: nat, d: Uuid)
    requires n <= |statements|
  {
    exists i: nat :: i < n && statements[i] == Exclude(d)
  }

  /** A row that was there has been excluded, or dropped and not inserted again, or is there still; one that
      was not is there exactly if it has been included in time. */
  ghost predicate Accounted(was: bool, r: Row, hit: bool, dropped: bool, included: bool, again: bool, excluded: bool) {
    && (r.live <==> !hit) && (dropped ==> hit)
    && (was ==> (r.own <==> again) && (r.own ==> r.present) && (!r.own ==> (r.present <==> !excluded && !dropped)))
    && (!was ==> (r.own <==> r.present) && (r.present <==> included))
  }

  lemma AccountedStep(was: bool, r: Row, hit: bool, dropped: bool, included: bool, again: bool, excluded: bool,
                      statement: Option<Statement>, hit1: bool, dropped1: bool, hit2: bool, dropped2: bool)
    requires Accounted(was, r, hit, dropped, included, again, excluded)
    requires statement.Some? ==> !included && !again && !excluded
    requires (dropped1 ==> hit1) && (dropped2 ==> hit2)
    ensures var begun := Struck(r, hit1, dropped1);
            var ended := Struck(begun, hit2, dropped2);
            var inserts, late := statement.Some? && statement.value.Include?, hit || hit1;
            Accounted(was, if statement.Some? then Written(ended, begun.live, statement.value) else ended, late || hit2,
                      dropped || (!hit && dropped1) || (!late && dropped2), included || (inserts && !late),
                      again || (inserts && !late && dropped2), excluded || (statement.Some? && statement.value.Exclude?))
  {
  }

  /** The row of a document that is live at first, after n statements and the first k batches of deletions. */
  ghost predicate RowAfter(was: bool, r: Row, statements: seq<Statement>, others: Schedule, n: nat, k: nat, d: Uuid,
                           account: Uuid)
    requires n <= |statements|
  {
    Accounted(was, r, Hit(Before(others, k), d, account), Dropped(Before(others, k), d, account),
              IncludedBy(statements, others, n, d, account), InsertedAgain(statements, others, n, d, account),
              ExcludedBy(statements, n, d))
  }

  lemma DroppedIsHit(xs: seq<Deletion>, d: Uuid, account: Uuid)
    ensures Dropped(xs, d, account) ==> Hit(xs, d, account)
  {
    if i :| 0 <= i < |xs| && xs[i] == Removal(d) && !Hit(xs[..i], d, account) {
      assert Hits(xs[i], d, account);
    }
  }

  lemma OneMoreNamed(statements: seq<Statement>, others: Schedule, n: nat, d: Uuid, account: Uuid)
    requires n < |statements| && NamedOnce(statements)
    ensures ExcludedBy(statements, n + 1, d) <==> ExcludedBy(statements, n, d) || statements[n] == Exclude(d)
    ensures IncludedBy(statements, others, n + 1, d, account) <==>
            IncludedBy(statements, others, n, d, account)
            || (statements[n] == Include(d) && !Hit(Before(others, 2 * n + 1), d, account))
    ensures InsertedAgain(statements, others, n + 1, d, account) <==>
            InsertedAgain(statements, others, n, d, account)
            || (statements[n] == Include(d) && DroppedDuring(others, n, d, account))
    ensures statements[n].document == d ==>
              && !ExcludedBy(statements, n, d) && !IncludedBy(statements, others, n, d, account)
              && !InsertedAgain(statements, others, n, d, account)
  {
  }

  lemma TwoMoreBatches(others: Schedule, n: nat, d: Uuid, account: Uuid)
    ensures var before, first, second := Before(others, 2 * n), At(others, 2 * n), At(others, 2 * n + 1);
            var hit := Hit(before, d, account);
            && (Hit(Before(others, 2 * n + 1), d, account) <==> hit || Hit(first, d, account))
            && (Hit(Before(others, 2 * (n + 1)), d, account) <==> hit || Hit(first, d, account) || Hit(second, d, account))
            && (Dropped(Before(others, 2 * (n + 1)), d, account) <==>
                || Dropped(before, d, account) || (!hit && Dropped(first, d, account))
                || (!hit && !Hit(first, d, account) && Dropped(second, d, account)))
            && (Dropped(first, d, account) ==> Hit(first, d, account))
            && (Dropped(second, d, account) ==> Hit(second, d, account))
  {
    var before, first, second := Before(others, 2 * n), At(others, 2 * n), At(others, 2 * n + 1);
    assert Before(others, 2 * n + 1) == before + first && Before(others, 2 * n + 2) == (before + first) + second;
    HitMore(before, first, d, account);
    HitMore(before + first, second, d, account);
    DroppedMore(before, first, d, account);
    DroppedMore(before + first, second, d, account);
    DroppedIsHit(first, d, account);
    DroppedIsHit(second, d, account);
  }

  lemma RowNext(was: bool, r: Row, statements: seq<Statement>, others: Schedule, n: nat, d: Uuid, account: Uuid)
    requires n < |statements| && NamedOnce(statements) && RowAfter(was, r, statements, others, n, 2 * n, d, account)
    ensures var statement := if statements[n].document == d then Some(statements[n]) else None;
            RowAfter(was, SteppedTo(r, statement, others, n, d, account), statements, others, n + 1, 2 * (n + 1), d, account)
  {
    var first, second := At(others, 2 * n), At(others, 2 * n + 1);
    OneMoreNamed(statements, others, n, d, account);
    TwoMoreBatches(others, n, d, account);
    AccountedStep(was, r, Hit(Before(others, 2 * n), d, account), Dropped(Before(others, 2 * n), d, account),
                  IncludedBy(statements, others, n, d, account), InsertedAgain(statements, others, n, d, account),
                  ExcludedBy(statements, n, d), if statements[n].document == d then Some(statements[n]) else None,
                  Hit(first, d, account), Dropped(first, d, account), Hit(second, d, account), Dropped(second, d, account));
  }

  lemma {:induction false} AfterRow(s: View, c: Uuid, owner: Uuid, statements: seq<Statement>, others: Schedule, n: nat,
                                    d: Uuid)
    requires n <= |statements| && NamedOnce(statements) && s.own == {} && OwnedLive(s.documents, owner, d)
    ensures var t, m := After(s, c, owner, statements, others, n), Member(c, d);
            OwnerKept(s, t, d) && RowAfter(m in s.members, RowOf(t, m), statements, others, n, 2 * n, d, owner)
  {
    if n > 0 {
      AfterRow(s, c, owner, statements, others, n - 1, d);
      NextRow(s, After(s, c, owner, statements, others, n - 1), c, owner, statements, others, n - 1, d);
    }
  }

  lemma NextRow(s: View, t: View, c: Uuid, owner: Uuid, statements: seq<Statement>, others: Schedule, n: nat, d: Uuid)
    requires n < |statements| && NamedOnce(statements) && d in s.documents && s.documents[d].owner == owner
    requires OwnerKept(s, t, d)
    requires var m := Member(c, d); RowAfter(m in s.members, RowOf(t, m), statements, others, n, 2 * n, d, owner)
    ensures var u, m := Stepped(t, c, owner, statements[n], others, n), Member(c, d);
            OwnerKept(s, u, d) && RowAfter(m in s.members, RowOf(u, m), statements, others, n + 1, 2 * (n + 1), d, owner)
  {
    var m := Member(c, d);
    SteppedRow(t, c, owner, statements[n], others, n, m);
    RowNext(m in s.members, RowOf(t, m), statements, others, n, d, owner);
  }

  /** And once the last deletions before the commit are in. */
  lemma CommittedAfter(was: bool, r: Row, statements: seq<Statement>, others: Schedule, n: nat, d: Uuid, account: Uuid)
    requires n <= |statements| && RowAfter(was, r, statements, others, n, 2 * n, d, account)
    ensures RowAfter(was, StruckBy(r, At(others, 2 * n), d, account), statements, others, n, 2 * n + 1, d, account)
  {
    HitMore(Before(others, 2 * n), At(others, 2 * n), d, account);
    DroppedMore(Before(others, 2 * n), At(others, 2 * n), d, account);
    DroppedIsHit(At(others, 2 * n), d, account);
  }

  /** The row of another collection, or of a document that is deleted already or of another owner, is
      touched by no statement. */
  lemma {:induction false} RowElsewhere(s: View, c: Uuid, owner: Uuid, statements: seq<Statement>, others: Schedule,
                                        n: nat, m: Member)
    requires n <= |statements| && s.own == {} && m.document in s.documents
    requires forall i :: 0 <= i < n ==> !Names(statements[i], c, m)
    ensures var t, d := After(s, c, owner, statements, others, n), m.document;
            && OwnerKept(s, t, d)
            && RowOf(t, m) == StruckBy(RowOf(s, m), Before(others, 2 * n), d, s.documents[d].owner)
  {
    if n > 0 {
      var t, account := After(s, c, owner, statements, others, n - 1), s.documents[m.document].owner;
      RowElsewhere(s, c, owner, statements, others, n - 1, m);
      SteppedRow(t, c, owner, statements[n - 1], others, n - 1, m);
      StruckTwice(RowOf(s, m), others, n - 1, m.document, account);
    }
  }

  lemma StruckTwice(r: Row, others: Schedule, n: nat, d: Uuid, account: Uuid)
    ensures SteppedTo(StruckBy(r, Before(others, 2 * n), d, account), None, others, n, d, account) ==
            StruckBy(r, Before(others, 2 * (n + 1)), d, account)
  {
    TwoMoreBatches(others, n, d, account);
  }

  // ----- the members when the update commits -----

  /** What the check of the update has established. */
  ghost predicate Checked(s: View, owner: Uuid, added: seq<Uuid>, removed: seq<Uuid>) {
    && s.own == {} && Distinct(added + removed)
    && (forall d :: d in added || d in removed ==> OwnedLive(s.documents, owner, d))
    && ForeignKey(s)
  }

  lemma StatementsNameOnce(added: seq<Uuid>, removed: seq<Uuid>)
    requires Distinct(added + removed)
    ensures NamedOnce(Statements(added, removed))
  {
    var statements, all := Statements(added, removed), added + removed;
    forall i | 0 <= i < |statements| ensures statements[i].document == all[i] {
      assert i >= |added| ==> statements[|added| + (i - |added|)] == Exclude(removed[i - |added|]);
    }
  }

  /** All that others commit before the update does. */
  function Meanwhile(added: seq<Uuid>, removed: seq<Uuid>, others: Schedule): seq<Deletion> {
    Before(others, 2 * (|added| + |removed|) + 1)
  }

  /** The rows of an owned live document. */
  lemma OwnedRow(s: View, c: Uuid, owner: Uuid, added: seq<Uuid>, removed: seq<Uuid>, others: Schedule, d: Uuid)
    requires Checked(s, owner, added, removed) && OwnedLive(s.documents, owner, d)
    ensures var t, m := Outcome(s, c, owner, added, removed, others), Member(c, d);
            var statements := Statements(added, removed);
            m in t.members <==>
            if m in s.members
            then
              || InsertedAgain(statements, others, |statements|, d, owner)
              || (d !in removed && !Dropped(Meanwhile(added, removed, others), d, owner))
            else IncludedBy(statements, others, |statements|, d, owner)
  {
    StatementsNameOnce(added, removed);
    OwnedInTheEnd(s, c, owner, Statements(added, removed), others, d);
    ExcludedExactly(added, removed, d);
  }

  lemma OwnedInTheEnd(s: View, c: Uuid, owner: Uuid, statements: seq<Statement>, others: Schedule, d: Uuid)
    requires NamedOnce(statements) && s.own == {} && OwnedLive(s.documents, owner, d)
    ensures var n, m := |statements|, Member(c, d);
            m in AllCommitted(After(s, c, owner, statements, others, n), At(others, 2 * n)).members <==>
            if m in s.members
            then
              || InsertedAgain(statements, others, n, d, owner)
              || (!ExcludedBy(statements, n, d) && !Dropped(Before(others, 2 * n + 1), d, owner))
            else IncludedBy(statements, others, n, d, owner)
  {
    var n, m := |statements|, Member(c, d);
    var t := After(s, c, owner, statements, others, n);
    AfterRow(s, c, owner, statements, others, n, d);
    AllCommittedRow(t, At(others, 2 * n), m);
    CommittedAfter(m in s.members, RowOf(t, m), statements, others, n, d, owner);
  }

  lemma ExcludedExactly(added: seq<Uuid>, removed: seq<Uuid>, d: Uuid)
    ensures ExcludedBy(Statements(added, removed), |added| + |removed|, d) <==> d in removed
  {
    var statements, n := Statements(added, removed), |added| + |removed|;
    if d in removed {
      var k :| 0 <= k < |removed| && removed[k] == d;
      assert statements[|added| + k] == Exclude(d);
    }
    if ExcludedBy(statements, n, d) {
      var i: nat :| i < n && statements[i] == Exclude(d);
      assert i >= |added| && statements[|added| + (i - |added|)] == Exclude(removed[i - |added|]);
    }
  }

  /** An added document that was no member is one exactly if nothing that commits before its insert begins
      hits it. */
  lemma AddedExactly(s: View, c: Uuid, owner: Uuid, added: seq<Uuid>, removed: seq<Uuid>, others: Schedule, i: nat)
    requires Checked(s, owner, added, removed) && i < |added| && Member(c, added[i]) !in s.members
    ensures Member(c, added[i]) in Outcome(s, c, owner, added, removed, others).members <==>
            !Hit(Before(others, 2 * i + 1), added[i], owner)
  {
    var statements := Statements(added, removed);
    StatementsNameOnce(added, removed);
    OwnedRow(s, c, owner, added, removed, others, added[i]);
    assert statements[i] == Include(added[i]);
    if IncludedBy(statements, others, |statements|, added[i], owner) {
      var k: nat :| k < |statements| && statements[k] == Include(added[i]) && !Hit(Before(others, 2 * k + 1), added[i], owner);
      assert k == i;
    }
  }

  /** A removed document is no member, and no document is one that was neither a member nor added. */
  lemma NotAdded(s: View, c: Uuid, owner: Uuid, added: seq<Uuid>, removed: seq<Uuid>, others: Schedule, d: Uuid)
    requires Checked(s, owner, added, removed) && d in s.documents
    requires d in removed || (d !in added && Member(c, d) !in s.members)
    ensures Member(c, d) !in Outcome(s, c, owner, added, removed, others).members
  {
    if OwnedLive(s.documents, owner, d) {
      OwnedRow(s, c, owner, added, removed, others, d);
      AddedNotRemoved(added, removed);
      NeverIncluded(added, removed, others, d, owner);
    } else {
      Untouched(s, c, owner, added, removed, others, Member(c, d));
    }
  }

  lemma NeverIncluded(added: seq<Uuid>, removed: seq<Uuid>, others: Schedule, d: Uuid, owner: Uuid)
    requires d !in added
    ensures !IncludedBy(Statements(added, removed), others, |added| + |removed|, d, owner)
    ensures !InsertedAgain(Statements(added, removed), others, |added| + |removed|, d, owner)
  {
    var statements := Statements(added, removed);
    forall k | 0 <= k < |statements| ensures statements[k] != Include(d) {
      if k >= |added| {
        assert statements[|added| + (k - |added|)] == Exclude(removed[k - |added|]);
      }
    }
  }

  lemma AddedNotRemoved(added: seq<Uuid>, removed: seq<Uuid>)
    requires Distinct(added + removed)
    ensures forall d :: d in removed ==> d !in added
  {
    var all := added + removed;
    forall i, k | 0 <= i < |added| && 0 <= k < |removed| ensures added[i] != removed[k] {
      assert all[i] == added[i] && all[|added| + k] == removed[k];
    }
  }

  /** Rows of collection_documents refer to documents. */
  ghost predicate ForeignKey(s: View) { forall m :: m in s.members ==> m.document in s.documents }

  lemma {:induction false} AllCommittedKeepsForeignKey(s: View, xs: seq<Deletion>)
    requires ForeignKey(s)
    ensures ForeignKey(AllCommitted(s, xs)) && AllCommitted(s, xs).documents.Keys == s.documents.Keys
  {
    if xs != [] {
      AllCommittedKeepsForeignKey(s, xs[..|xs| - 1]);
    }
  }

  lemma {:induction false} AfterKeepsForeignKey(s: View, c: Uuid, owner: Uuid, statements: seq<Statement>,
                                                others: Schedule, n: nat)
    requires ForeignKey(s) && n <= |statements|
    ensures var t := After(s, c, owner, statements, others, n); ForeignKey(t) && t.documents.Keys == s.documents.Keys
  {
    if n > 0 {
      AfterKeepsForeignKey(s, c, owner, statements, others, n - 1);
      SteppedKeepsForeignKey(After(s, c, owner, statements, others, n - 1), c, owner, statements[n - 1], others, n - 1);
    }
  }

  lemma SteppedKeepsForeignKey(s: View, c: Uuid, owner: Uuid, statement: Statement, others: Schedule, n: nat)
    requires ForeignKey(s)
    ensures var t := Stepped(s, c, owner, statement, others, n); ForeignKey(t) && t.documents.Keys == s.documents.Keys
  {
    AllCommittedKeepsForeignKey(s, At(others, 2 * n));
    AllCommittedKeepsForeignKey(AllCommitted(s, At(others, 2 * n)), At(others, 2 * n + 1));
  }

  lemma OutcomeKeepsForeignKey(s: View, c: Uuid, owner: Uuid, added: seq<Uuid>, removed: seq<Uuid>, others: Schedule)
    requires ForeignKey(s)
    ensures var t := Outcome(s, c, owner, added, removed, others); ForeignKey(t) && t.documents.Keys == s.documents.Keys
  {
    var statements, n := Statements(added, removed), |added| + |removed|;
    AfterKeepsForeignKey(s, c, owner, statements, others, n);
    AllCommittedKeepsForeignKey(After(s, c, owner, statements, others, n), At(others, 2 * n));
  }

  /** The insert of the document waits for the removal that drops its rows. */
  ghost predicate Waited(added: seq<Uuid>, others: Schedule, d: Uuid, account: Uuid) {
    exists i: nat :: i < |added| && added[i] == d && DroppedDuring(others, i, d, account)
  }

  lemma WaitedExactly(added: seq<Uuid>, removed: seq<Uuid>, others: Schedule, d: Uuid, account: Uuid)
    ensures InsertedAgain(Statements(added, removed), others, |added| + |removed|, d, account) <==>
            Waited(added, others, d, account)
  {
    var statements := Statements(added, removed);
    if Waited(added, others, d, account) {
      var i: nat :| i < |added| && added[i] == d && DroppedDuring(others, i, d, account);
      assert statements[i] == Include(d);
    }
    if InsertedAgain(statements, others, |statements|, d, account) {
      var i: nat :| i < |statements| && statements[i] == Include(d) && DroppedDuring(others, i, d, account);
      assert i < |added|;
    }
  }

  /** A member that is not removed stays one exactly if it is not dropped, or an insert of the update waits
      for that: in the collection of the update, whether added or not, and in every other. */
  lemma StaysExactly(s: View, c: Uuid, owner: Uuid, added: seq<Uuid>, removed: seq<Uuid>, others: Schedule, m: Member)
    requires Checked(s, owner, added, removed) && m in s.members && (m.collection != c || m.document !in removed)
    ensures var d := m.document;
            m in Outcome(s, c, owner, added, removed, others).members <==>
            || !(LiveItem(s, d) && Dropped(Meanwhile(added, removed, others), d, s.documents[d].owner))
            || (m.collection == c && Waited(added, others, d, owner))
  {
    if m.collection == c && OwnedLive(s.documents, owner, m.document) {
      OwnedRow(s, c, owner, added, removed, others, m.document);
      WaitedExactly(added, removed, others, m.document, owner);
    } else {
      Untouched(s, c, owner, added, removed, others, m);
    }
  }

  lemma Untouched(s: View, c: Uuid, owner: Uuid, added: seq<Uuid>, removed: seq<Uuid>, others: Schedule, m: Member)
    requires Checked(s, owner, added, removed) && m.document in s.documents
    requires m.collection != c || !OwnedLive(s.documents, owner, m.document)
    ensures var d := m.document;
            m in Outcome(s, c, owner, added, removed, others).members <==>
            m in s.members && !(LiveItem(s, d) && Dropped(Meanwhile(added, removed, others), d, s.documents[d].owner))
  {
    NotNamed(s, c, owner, added, removed, m);
    ElsewhereInTheEnd(s, c, owner, Statements(added, removed), others, m);
  }

  lemma NotNamed(s: View, c: Uuid, owner: Uuid, added: seq<Uuid>, removed: seq<Uuid>, m: Member)
    requires Checked(s, owner, added, removed) && (m.collection != c || !OwnedLive(s.documents, owner, m.document))
    ensures forall statement :: statement in Statements(added, removed) ==> !Names(statement, c, m)
  {
    var statements := Statements(added, removed);
    forall i | 0 <= i < |statements| ensures !Names(statements[i], c, m) {
      assert i >= |added| ==> statements[|added| + (i - |added|)] == Exclude(removed[i - |added|]);
    }
  }

  lemma ElsewhereInTheEnd(s: View, c: Uuid, owner: Uuid, statements: seq<Statement>, others: Schedule, m: Member)
    requires s.own == {} && m.document in s.documents
    requires forall statement :: statement in statements ==> !Names(statement, c, m)
    ensures var n, d := |statements|, m.document;
            RowOf(AllCommitted(After(s, c, owner, statements, others, n), At(others, 2 * n)), m) ==
            StruckBy(RowOf(s, m), Before(others, 2 * n + 1), d, s.documents[d].owner)
  {
    var n, d := |statements|, m.document;
    RowElsewhere(s, c, owner, statements, others, n, m);
    AllCommittedRow(After(s, c, owner, statements, others, n), At(others, 2 * n), m);
    StruckMore(RowOf(s, m), Before(others, 2 * n), At(others, 2 * n), d, s.documents[d].owner);
  }

  /** The members are (old + added) - removed if and only if no added document that was no member is hit
      before its insert begins, and a member that is to stay is dropped only while its insert waits. */
  lemma CompleteExactly(s: View, c: Uuid, owner: Uuid, added: seq<Uuid>, removed: seq<Uuid>, others: Schedule)
    requires Checked(s, owner, added, removed)
    ensures var after := Outcome(s, c, owner, added, removed, others).members;
            MembersOf(after, c) == (MembersOf(s.members, c) + Elements(added)) - Elements(removed) <==>
            && (forall i: nat :: i < |added| && Member(c, added[i]) !in s.members ==>
                  !Hit(Before(others, 2 * i + 1), added[i], owner))
            && (forall d :: Member(c, d) in s.members && d !in removed && LiveItem(s, d)
                            && Dropped(Meanwhile(added, removed, others), d, s.documents[d].owner) ==>
                  Waited(added, others, d, owner))
  {
    var after := Outcome(s, c, owner, added, removed, others).members;
    InMembersOf(s.members, c);
    InMembersOf(after, c);
    forall i: nat | i < |added| && Member(c, added[i]) !in s.members
      ensures Member(c, added[i]) in after <==> !Hit(Before(others, 2 * i + 1), added[i], owner)
    {
      AddedExactly(s, c, owner, added, removed, others, i);
    }
    forall d | Member(c, d) in s.members && d !in removed
      ensures Member(c, d) in after <==>
              || !(LiveItem(s, d) && Dropped(Meanwhile(added, removed, others), d, s.documents[d].owner))
              || Waited(added, others, d, owner)
    {
      StaysExactly(s, c, owner, added, removed, others, Member(c, d));
    }
    forall d | d in s.documents && (d in removed || (d !in added && Member(c, d) !in s.members))
      ensures Member(c, d) !in after
    {
      NotAdded(s, c, owner, added, removed, others, d);
    }
    AddedNotRemoved(added, removed);
    OutcomeKeepsForeignKey(s, c, owner, added, removed, others);
  }

  /** The one count over both lists checks all of it. */
  lemma ChangeCheck(documents: map<Uuid, Item>, owner: Uuid, rawAdded: seq<Option<Uuid>>, rawRemoved: seq<Option<Uuid>>)
    requires Parsed(rawAdded).Some? && Parsed(rawRemoved).Some?
    ensures var all := Parsed(rawAdded).value + Parsed(rawRemoved).value;
            CountOwned(documents, owner, all) == |all| <==> ValidChange(documents, owner, rawAdded, rawRemoved)
  {
    var added, removed := Parsed(rawAdded).value, Parsed(rawRemoved).value;
    var all := added + removed;
    ParsedIsDistinct(rawAdded);
    ParsedIsDistinct(rawRemoved);
    CountCheck(documents, owner, all);
    if CountOwned(documents, owner, all) == |all| {
      AddedAndRemovedAreDisjoint(documents, owner, added, removed);
      forall d | d in Elements(added) + Elements(removed) ensures OwnedLive(documents, owner, d) {
        assert d in all;
      }
    }
    if Elements(added) !! Elements(removed) {
      forall i, j | 0 <= i < j < |all| ensures all[i] != all[j] {
        assert i < |added| <= j ==> all[i] in Elements(added) && all[j] in Elements(removed);
      }
    }
  }

  class Store {
    var documents: map<Uuid, Item>
    var collections: map<Uuid, Collection>
    var members: set<Member>
    var own: set<Member>  // inserted by the transaction in progress

    constructor ()
      ensures NamesUnique(collections) && Tables() == View(map[], {}, {})
    {
      documents, collections, members, own := map[], map[], {}, {};
    }

    function Tables(): View
      reads this
    {
      View(documents, members, own)
    }

    method GetCollectionByName(owner: Uuid, name: string) returns (c: Option<Uuid>)
      ensures c.Some? ==> c.value in collections && collections[c.value].owner == owner && collections[c.value].name == name
      ensures c.None? ==> forall x :: x in collections ==> !(collections[x].owner == owner && collections[x].name == name)
    {
      var todo := collections.Keys;
      while todo != {}
        invariant todo <= collections.Keys
        invariant forall x :: x in collections && x !in todo ==> !(collections[x].owner == owner && collections[x].name == name)
        decreases |todo|
      {
        var x: Uuid :| x in todo;
        if collections[x].owner == owner && collections[x].name == name { return Some(x); }
        todo := todo - {x};
      }
      return None;
    }

    /** INSERT ... SELECT with both owners checked, ON CONFLICT DO NOTHING. */
    method AddDocumentToCollection(c: Uuid, d: Uuid, owner: Uuid, meanwhile: seq<Deletion>)
      modifies `documents, `members, `own
      ensures var row, t := Member(c, d), AllCommitted(old(Tables()), meanwhile);
              Tables() ==
              if c in collections && collections[c].owner == owner && OwnedLive(old(documents), owner, d) && row !in t.members
              then t.(members := t.members + {row}, own := t.own + {row}) else t
      ensures c in collections && collections[c].owner == owner ==>
                Tables() == Executed(old(Tables()), c, owner, Include(d), meanwhile)
    {
      var selected := c in collections && collections[c].owner == owner && OwnedLive(documents, owner, d);
      Elsewhere(meanwhile);
      if selected && Member(c, d) !in members {
        members, own := members + {Member(c, d)}, own + {Member(c, d)};
      }
    }

    method RemoveOwnedDocumentFromCollection(c: Uuid, d: Uuid, owner: Uuid, meanwhile: seq<Deletion>)
      modifies `documents, `members
      ensures var t := AllCommitted(old(Tables()), meanwhile);
              Tables() ==
              if c in collections && collections[c].owner == owner && d in old(documents) && old(documents)[d].owner == owner
              then t.(members := t.members - {Member(c, d)}) else t
      ensures c in collections && collections[c].owner == owner ==>
                Tables() == Executed(old(Tables()), c, owner, Exclude(d), meanwhile)
    {
      var selected := c in collections && collections[c].owner == owner && d in documents && documents[d].owner == owner;
      Elsewhere(meanwhile);
      if selected {
        members := members - {Member(c, d)};
      }
    }

    /** The row, unless another collection of the owner has the new name. */
    method UpdateRow(c: Uuid, name: string, description: string) returns (ok: bool)
      requires c in collections
      modifies `collections
      ensures ok <==> NameFree(old(collections), c, name)
      ensures collections == if ok then old(collections)[c := Collection(old(collections)[c].owner, name, description)]
                             else old(collections)
    {
      var todo := collections.Keys - {c};
      while todo != {}
        invariant todo <= collections.Keys - {c} && collections == old(collections)
        invariant forall x :: x in collections && x != c && x !in todo ==>
                    !(collections[x].owner == collections[c].owner && collections[x].name == name)
        decreases |todo|
      {
        var x: Uuid :| x in todo;
        if collections[x].owner == collections[c].owner && collections[x].name == name { return false; }
        todo := todo - {x};
      }
      collections := collections[c := Collection(collections[c].owner, name, description)];
      ok := true;
    }

    /** The lists parse, and name owned live documents, each once and in one list only. */
    method Validate(owner: Uuid, rawAdded: seq<Option<Uuid>>, rawRemoved: seq<Option<Uuid>>)
      returns (change: Option<(seq<Uuid>, seq<Uuid>)>)
      ensures change.Some? ==> ValidChange(documents, owner, rawAdded, rawRemoved)
                               && change.value == (Parsed(rawAdded).value, Parsed(rawRemoved).value)
      ensures change.None? ==> !ValidChange(documents, owner, rawAdded, rawRemoved)
    {
      var added := ParseDocumentIDs(rawAdded);
      if added.None? { return None; }
      var removed := ParseDocumentIDs(rawRemoved);
      if removed.None? { return None; }
      ChangeCheck(documents, owner, rawAdded, rawRemoved);
      if CountOwned(documents, owner, added.value + removed.value) != |added.value + removed.value| { return None; }
      return Some((added.value, removed.value));
    }

    /** What other transactions commit. */
    method Elsewhere(xs: seq<Deletion>)
      modifies `documents, `members
      ensures Tables() == AllCommitted(old(Tables()), xs) && own == old(own)
    {
      for i := 0 to |xs|
        invariant Tables() == AllCommitted(old(Tables()), xs[..i]) && own == old(own)
      {
        assert xs[..i + 1][..i] == xs[..i];
        var after := Committed(Tables(), xs[i]);
        documents, members := after.documents, after.members;
      }
      assert xs[..|xs|] == xs;
    }

    /** The collection to update, its new name, and the lists, if all checks pass. */
    method Prepare(owner: Uuid, currentName: string, newName: Option<string>,
                   rawAdded: seq<Option<Uuid>>, rawRemoved: seq<Option<Uuid>>)
      returns (c: Option<Uuid>, added: seq<Uuid>, removed: seq<Uuid>)
      ensures c.Some? ==>
                c.value in collections && collections[c.value].owner == owner && collections[c.value].name == currentName
      ensures c.Some? ==>
                (newName.Some? ==> ValidName(newName.value).Some?) && ValidChange(documents, owner, rawAdded, rawRemoved)
      ensures c.Some? ==> added == Parsed(rawAdded).value && removed == Parsed(rawRemoved).value
      ensures c.None? ==>
                || (forall x :: x in collections ==> !(collections[x].owner == owner && collections[x].name == currentName))
                || (newName.Some? && ValidName(newName.value).None?) || !ValidChange(documents, owner, rawAdded, rawRemoved)
    {
      added, removed := [], [];
      c := GetCollectionByName(owner, currentName);
      if c.None? || (newName.Some? && ValidName(newName.value).None?) { return None, [], []; }
      var change := Validate(owner, rawAdded, rawRemoved);
      if change.None? { return None, [], []; }
      added, removed := change.value.0, change.value.1;
    }

    /** A successful update renames and describes the collection and commits Outcome, whatever others commit
        before and during each of its statements; one that fails changes nothing. */
    method UpdateCollection(owner: Uuid, currentName: string, newName: Option<string>, description: Option<string>,
                            rawAdded: seq<Option<Uuid>>, rawRemoved: seq<Option<Uuid>>, others: Schedule)
      returns (updated: Option<Uuid>)
      requires NamesUnique(collections) && own == {}
      modifies this
      ensures NamesUnique(collections) && own == {}
      ensures updated.Some? <==> Updatable(old(documents), old(collections), owner, currentName, newName, rawAdded, rawRemoved)
      ensures updated.None? ==> collections == old(collections) && Tables() == old(Tables())
      ensures updated.Some? ==>
                var c := updated.value;
                && c in old(collections) && old(collections)[c].owner == owner && old(collections)[c].name == currentName
                && collections == old(collections)[c := Collection(
                                                   owner, NewName(currentName, newName),
                                                   if description.Some? then Text.Trim(description.value)
                                                   else old(collections)[c].description)]
      ensures updated.Some? ==>
                && ValidChange(old(documents), owner, rawAdded, rawRemoved)
                && Tables() == Outcome(old(Tables()), updated.value, owner, Parsed(rawAdded).value,
                                       Parsed(rawRemoved).value, others).(own := {})
    {
      var c, added, removed := Prepare(owner, currentName, newName, rawAdded, rawRemoved);
      if c.None? { return None; }
      var text := if description.Some? then Text.Trim(description.value) else collections[c.value].description;
      var ok := Apply(c.value, owner, NewName(currentName, newName), text, added, removed, others);
      updated := if ok then c else None;
    }

    /** The writes of the update, up to its commit. */
    method Apply(c: Uuid, owner: Uuid, name: string, description: string, added: seq<Uuid>, removed: seq<Uuid>,
                 others: Schedule)
      returns (ok: bool)
      requires c in collections && collections[c].owner == owner && own == {}
      modifies this
      ensures ok <==> NameFree(old(collections), c, name)
      ensures !ok ==> collections == old(collections) && Tables() == old(Tables())
      ensures ok ==>
                && collections == old(collections)[c := Collection(owner, name, description)]
                && Tables() == Outcome(old(Tables()), c, owner, added, removed, others).(own := {})
    {
      ok := UpdateRow(c, name, description);
      if !ok { return; }
      ChangeMembers(c, owner, added, removed, others);
      own := {};
    }

    method ChangeMembers(c: Uuid, owner: Uuid, added: seq<Uuid>, removed: seq<Uuid>, others: Schedule)
      requires c in collections && collections[c].owner == owner
      modifies `members, `documents, `own
      ensures Tables() == Outcome(old(Tables()), c, owner, added, removed, others)
    {
      ghost var statements := Statements(added, removed);
      ExecuteAll(c, owner, added, removed, others, statements);
      Elsewhere(At(others, 2 * (|added| + |removed|)));
    }

    /** Both loops. */
    method ExecuteAll(c: Uuid, owner: Uuid, added: seq<Uuid>, removed: seq<Uuid>, others: Schedule,
                      ghost statements: seq<Statement>)
      requires c in collections && collections[c].owner == owner && |statements| == |added| + |removed|
      requires forall i :: 0 <= i < |added| ==> statements[i] == Include(added[i])
      requires forall i :: 0 <= i < |removed| ==> statements[|added| + i] == Exclude(removed[i])
      modifies `members, `documents, `own
      ensures Tables() == After(old(Tables()), c, owner, statements, others, |added| + |removed|)
    {
      ghost var views := Views(Tables(), c, owner, statements, others);
      IncludeAll(c, owner, added, others, views, statements);
      RemoveAll(c, owner, |added|, removed, others, views, statements);
    }

    /** The first loop. */
    method IncludeAll(c: Uuid, owner: Uuid, added: seq<Uuid>, others: Schedule, ghost views: seq<View>,
                      ghost statements: seq<Statement>)
      requires c in collections && collections[c].owner == owner && AreViews(views, c, owner, statements, others)
      requires |statements| >= |added| && forall i :: 0 <= i < |added| ==> statements[i] == Include(added[i])
      requires Tables() == views[0]
      modifies `members, `documents, `own
      ensures Tables() == views[|added|]
    {
      for i := 0 to |added|
        invariant Tables() == views[i]
      {
        assert IsView(views, c, owner, statements, others, i);
        IncludeOne(c, added[i], owner, others, i);
      }
    }

    /** The second loop, after k statements. */
    method RemoveAll(c: Uuid, owner: Uuid, k: nat, removed: seq<Uuid>, others: Schedule, ghost views: seq<View>,
                     ghost statements: seq<Statement>)
      requires c in collections && collections[c].owner == owner && AreViews(views, c, owner, statements, others)
      requires |statements| == k + |removed| && forall i :: 0 <= i < |removed| ==> statements[k + i] == Exclude(removed[i])
      requires Tables() == views[k]
      modifies `members, `documents
      ensures Tables() == views[k + |removed|]
    {
      for i := 0 to |removed|
        invariant Tables() == views[k + i]
      {
        assert IsView(views, c, owner, statements, others, k + i);
        ExcludeOne(c, removed[i], owner, others, k + i);
      }
    }

    method IncludeOne(c: Uuid, d: Uuid, owner: Uuid, others: Schedule, n: nat)
      requires c in collections && collections[c].owner == owner
      modifies `members, `documents, `own
      ensures Tables() == Stepped(old(Tables()), c, owner, Include(d), others, n)
    {
      Elsewhere(At(others, 2 * n));
      AddDocumentToCollection(c, d, owner, At(others, 2 * n + 1));
    }

    method ExcludeOne(c: Uuid, d: Uuid, owner: Uuid, others: Schedule, n: nat)
      requires c in collections && collections[c].owner == owner
      modifies `members, `documents
      ensures Tables() == Stepped(old(Tables()), c, owner, Exclude(d), others, n)
    {
      Elsewhere(At(others, 2 * n));
      RemoveOwnedDocumentFromCollection(c, d, owner, At(others, 2 * n + 1));
    }
  }

  /** The tables before the first statement and after each. */
  ghost predicate IsView(views: seq<View>, c: Uuid, owner: Uuid, statements: seq<Statement>, others: Schedule, n: nat)
    requires n < |statements| && |views| == |statements| + 1
  {
    views[n + 1] == Stepped(views[n], c, owner, statements[n], others, n)
  }

  ghost predicate AreViews(views: seq<View>, c: Uuid, owner: Uuid, statements: seq<Statement>, others: Schedule) {
    && |views| == |statements| + 1
    && forall n :: 0 <= n < |statements| ==> IsView(views, c, owner, statements, others, n)
  }

  lemma Views(s: View, c: Uuid, owner: Uuid, statements: seq<Statement>, others: Schedule) returns (views: seq<View>)
    ensures AreViews(views, c, owner, statements, others) && views[0] == s
    ensures views[|statements|] == After(s, c, owner, statements, others, |statements|)
  {
    views := seq(|statements| + 1, n requires 0 <= n <= |statements| => After(s, c, owner, statements, others, n));
    forall n | 0 <= n < |statements| ensures IsView(views, c, owner, statements, others, n) {
      OneMoreStatement(s, c, owner, statements, others, n);
    }
  }

  lemma OneMoreStatement(s: View, c: Uuid, owner: Uuid, statements: seq<Statement>, others: Schedule, n: nat)
    requires n < |statements|
    ensures After(s, c, owner, statements, others, n + 1) ==
            Stepped(After(s, c, owner, statements, others, n), c, owner, statements[n], others, n)
  {
  }

  /** What a valid change makes of the hypotheses above. */
  lemma ValidIsChecked(s: View, owner: Uuid, rawAdded: seq<Option<Uuid>>, rawRemoved: seq<Option<Uuid>>)
    requires ValidChange(s.documents, owner, rawAdded, rawRemoved) && s.own == {}
    requires ForeignKey(s)
    ensures Checked(s, owner, Parsed(rawAdded).value, Parsed(rawRemoved).value)
  {
    var added, removed := Parsed(rawAdded).value, Parsed(rawRemoved).value;
    ParsedIsDistinct(rawAdded);
    ParsedIsDistinct(rawRemoved);
    var all := added + removed;
    forall i, j | 0 <= i < j < |all| ensures all[i] != all[j] {
      assert i < |added| <= j ==> all[i] in Elements(added) && all[j] in Elements(removed);
    }
    forall d | d in added || d in removed ensures OwnedLive(s.documents, owner, d) {
      assert d in Elements(added) + Elements(removed);
    }
  }

  // ----- the races -----

  /** Document 1 is added to the collection 5 of account 9, of which it may be a member. */
  function Raced(members: set<Member>, before: seq<Deletion>, meanwhile: seq<Deletion>): View {
    Outcome(View(map[1 := Item(9, false)], members, {}), 5, 9, [1], [], [before, meanwhile])
  }

  /** Removed before its insert begins it is left out, member or not. Removed after that, but before the
      insert ends, it is a member although it is deleted: a row of another transaction is deleted while the
      insert waits, and is there again. The update succeeds in all cases. */
  lemma Races(members: set<Member>)
    requires members <= {Member(5, 1)}
    ensures var t := Raced(members, [Removal(1)], []); t.members == {} && !LiveItem(t, 1)
    ensures var t := Raced(members, [], [Removal(1)]); t.members == {Member(5, 1)} && !LiveItem(t, 1)
  {
    var s := View(map[1 := Item(9, false)], members, {});
    var gone := View(map[1 := Item(9, true)], {}, {});
    assert Statements([1], []) == [Include(1)];
    assert [Removal(1)][..0] == [];
    assert AllCommitted(s, []) == s && AllCommitted(gone, []) == gone;
    assert AllCommitted(s, [Removal(1)]) == gone;
    assert Executed(gone, 5, 9, Include(1), []) == gone;
    assert Executed(s, 5, 9, Include(1), [Removal(1)]) == View(gone.documents, {Member(5, 1)}, {Member(5, 1)});
    forall others: Schedule ensures After(s, 5, 9, [Include(1)], others, 1) ==
                                    Executed(AllCommitted(s, At(others, 0)), 5, 9, Include(1), At(others, 1)) {
      assert After(s, 5, 9, [Include(1)], others, 0) == s;
    }
    assert AllCommitted(View(gone.documents, {Member(5, 1)}, {Member(5, 1)}), []) == View(gone.documents, {Member(5, 1)}, {Member(5, 1)});
  }

  lemma InMembersOf(members: set<Member>, c: Uuid)
    ensures forall d :: d in MembersOf(members, c) <==> Member(c, d) in members
  {
  }
}
