/** Storage usage and limits (internal/filestore/service.go, getStorageUsage). */
module Storage {
  import opened Schema

  const FREE_LIMIT := 0x4000_0000
  const PLUS_LIMIT := 10 * 0x4000_0000
  const ADMIN_LIMIT := 0x100_0000_0000

  /** storageLimit */
  function Limit(role: Role, plan: Plan): nat {
    if role == Admin then ADMIN_LIMIT else if plan == Plus then PLUS_LIMIT else FREE_LIMIT
  }

  /** 1 TiB for an administrator, 10 GiB for a paying user and 1 GiB for any other. */
  lemma LimitByAccount(role: Role, plan: Plan)
    ensures Limit(role, plan) == match (role, plan)
                                 case (Admin, _) => 1099511627776
                                 case (User, Plus) => 10737418240
                                 case (User, Free) => 1073741824
  {
  }

  /** The sum of the sizes. */
  ghost function Total(sizes: map<Uuid, nat>): nat {
    if sizes == map[] then 0
    else
      var d :| d in sizes;
      sizes[d] + Total(sizes - {d})
  }

  /** In whatever order the rows are added. */
  lemma {:induction false} TotalWithout(sizes: map<Uuid, nat>, d: Uuid)
    requires d in sizes
    ensures Total(sizes) == sizes[d] + Total(sizes - {d})
    decreases |sizes|
  {
    var x :| x in sizes && Total(sizes) == sizes[x] + Total(sizes - {x});
    if x != d {
      TotalWithout(sizes - {x}, d);
      TotalWithout(sizes - {d}, x);
      assert sizes - {x} - {d} == sizes - {d} - {x};
    }
  }

  lemma TotalWith(sizes: map<Uuid, nat>, d: Uuid, size: nat)
    requires d !in sizes
    ensures Total(sizes[d := size]) == Total(sizes) + size
  {
    TotalWithout(sizes[d := size], d);
    assert sizes[d := size] - {d} == sizes;
  }

  /** Fewer or smaller rows never add up to more. */
  lemma {:induction false} TotalShrinks(sizes: map<Uuid, nat>, less: map<Uuid, nat>)
    requires forall d :: d in less ==> d in sizes && less[d] <= sizes[d]
    ensures Total(less) <= Total(sizes)
    decreases |less|
  {
    if less != map[] {
      var d :| d in less;
      TotalWithout(less, d);
      TotalWithout(sizes, d);
      TotalShrinks(sizes - {d}, less - {d});
    }
  }

  lemma JoinWith(a: map<Uuid, nat>, b: map<Uuid, nat>, d: Uuid)
    requires a.Keys !! b.Keys && d in b
    ensures d !in a + (b - {d}) && (a + (b - {d}))[d := b[d]] == a + b
  {
  }

  lemma {:induction false} TotalJoins(a: map<Uuid, nat>, b: map<Uuid, nat>)
    requires a.Keys !! b.Keys
    ensures Total(a + b) == Total(a) + Total(b)
    decreases |b|
  {
    if b == map[] {
      assert a + b == a;
    } else {
      var d :| d in b;
      var rest := b - {d};
      TotalJoins(a, rest);
      TotalWithout(b, d);
      JoinWith(a, b, d);
      TotalWith(a + rest, d, b[d]);
    }
  }

  /** SUM(file_size) over the live documents of an account. */
  function LiveSizes(documents: map<Uuid, Document>, owner: Uuid): map<Uuid, nat> {
    map d | d in documents && documents[d].owner == owner && !documents[d].deleted :: documents[d].fileSize
  }

  lemma CountedSizes(documents: map<Uuid, Document>, owner: Uuid, d: Uuid)
    ensures d in LiveSizes(documents, owner) <==> d in documents && documents[d].owner == owner && !documents[d].deleted
    ensures d in LiveSizes(documents, owner) ==> LiveSizes(documents, owner)[d] == documents[d].fileSize
    ensures Total(map[]) == 0 && (d in LiveSizes(documents, owner) ==>
              Total(LiveSizes(documents, owner)) == documents[d].fileSize + Total(LiveSizes(documents, owner) - {d}))
  {
    if d in LiveSizes(documents, owner) {
      TotalWithout(LiveSizes(documents, owner), d);
    }
  }

  method GetStorageUsage(documents: map<Uuid, Document>, owner: Uuid) returns (usage: nat)
    ensures usage == Total(LiveSizes(documents, owner))
  {
    usage := 0;
    var todo := documents.Keys;
    ghost var counted: map<Uuid, nat> := map[];
    while todo != {}
      invariant todo <= documents.Keys && usage == Total(counted)
      invariant counted == map d | d in LiveSizes(documents, owner) && d !in todo :: LiveSizes(documents, owner)[d]
      decreases |todo|
    {
      var d: Uuid :| d in todo;
      if documents[d].owner == owner && !documents[d].deleted {
        TotalWith(counted, d, documents[d].fileSize);
        usage := usage + documents[d].fileSize;
        counted := counted[d := documents[d].fileSize];
      }
      todo := todo - {d};
    }
    assert counted == LiveSizes(documents, owner);
  }
}
