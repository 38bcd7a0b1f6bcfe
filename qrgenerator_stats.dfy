/** The status counts an owner sees: the statistics of one batch on its detail page,
    and the totals of the dashboard over all the owner's batches. */
module Statistics {
  import opened Wrappers
  import opened AccountModels
  import opened CodeModels
  import opened Redemption

  /** The keys among `keys` whose code has status `s`. */
  function WithStatus(codes: map<string, CodeRow>, keys: set<string>, s: CodeStatus): (r: set<string>)
    requires keys <= codes.Keys
    ensures r <= keys
    ensures forall k | k in keys :: k in r <==> codes[k].status == s
  {
    set k | k in keys && codes[k].status == s
  }

  /** A set split three ways by a status has the sum of the parts as its size. */
  lemma StatusPartition(codes: map<string, CodeRow>, keys: set<string>)
    requires keys <= codes.Keys
    ensures |keys| == |WithStatus(codes, keys, NonUtilise)| + |WithStatus(codes, keys, Utilise)|
                      + |WithStatus(codes, keys, Expire)|
  {
    var n, u, e := WithStatus(codes, keys, NonUtilise), WithStatus(codes, keys, Utilise),
                   WithStatus(codes, keys, Expire);
    assert n * u == {} && (n + u) * e == {};
    assert keys == n + u + e by {
      forall k | k in keys ensures k in n + u + e {
        match codes[k].status
        case NonUtilise => assert k in n;
        case Utilise => assert k in u;
        case Expire => assert k in e;
      }
    }
    assert |n + u| == |n| + |u|;
  }

  /** The `stats` of `batch_detail`: the batch's codes, and how many of them have each
      status. */
  datatype BatchStats = BatchStats(total: nat, nonUtilise: nat, utilise: nat, expire: nat)

  function BatchDetailStats(codes: map<string, CodeRow>, b: BatchId): (st: BatchStats)
    ensures st.total == |CodesOfBatch(codes, b)|
    ensures st.nonUtilise == |WithStatus(codes, CodesOfBatch(codes, b), NonUtilise)|
    ensures st.utilise == |WithStatus(codes, CodesOfBatch(codes, b), Utilise)|
    ensures st.expire == |WithStatus(codes, CodesOfBatch(codes, b), Expire)|
    // The three status counts always add up to the total.
    ensures st.total == st.nonUtilise + st.utilise + st.expire
  {
    var keys := CodesOfBatch(codes, b);
    StatusPartition(codes, keys);
    BatchStats(|keys|, |WithStatus(codes, keys, NonUtilise)|, |WithStatus(codes, keys, Utilise)|,
               |WithStatus(codes, keys, Expire)|)
  }

  /** The body of the detail page: the statistics, and the codes listed, which are the
      batch's codes with the status named by the `status` parameter, or all of them when
      it is empty. */
  datatype DetailPage = DetailPage(stats: BatchStats, listed: set<string>)

  /** `batch_detail`: a batch of another creator, or no batch at all, is a 404. */
  function BatchDetail(batches: map<BatchId, BatchRow>, codes: map<string, CodeRow>, pk: BatchId,
                       user: UserId, statusFilter: string): (r: Option<DetailPage>)
    ensures r.None? <==> pk !in batches || batches[pk].createdBy != Some(user)
    ensures r.Some? ==> r.value.stats == BatchDetailStats(codes, pk)
    ensures r.Some? ==> r.value.listed <= CodesOfBatch(codes, pk)
    ensures r.Some? ==> forall k | k in CodesOfBatch(codes, pk) ::
      k in r.value.listed <==> statusFilter == "" || CodeStatusValue(codes[k].status) == statusFilter
    // A filter that is not one of the declared statuses lists nothing.
    ensures r.Some? && statusFilter != "" && ParseCodeStatus(statusFilter).None? ==> r.value.listed == {}
  {
    if pk !in batches || batches[pk].createdBy != Some(user) then None
    else
      var keys := CodesOfBatch(codes, pk);
      var listed := set k | k in keys && (statusFilter == "" || CodeStatusValue(codes[k].status) == statusFilter);
      Some(DetailPage(BatchDetailStats(codes, pk), listed))
  }

  /** The codes of the batches created by `owner`. */
  function OwnedCodes(codes: map<string, CodeRow>, batches: map<BatchId, BatchRow>, owner: UserId): (r: set<string>)
    ensures r <= codes.Keys
    ensures forall k | k in codes :: k in r <==> InScope(codes, batches, k, Some(owner))
  {
    set k | k in codes && InScope(codes, batches, k, Some(owner))
  }

  /** A code the dashboard counts as active at `now`: unused and due strictly later. */
  predicate Active(row: CodeRow, now: Instant) {
    row.status == NonUtilise && row.expirationDate > now
  }

  function ActiveCodes(codes: map<string, CodeRow>, keys: set<string>, now: Instant): (r: set<string>)
    requires keys <= codes.Keys
    ensures r <= keys
    ensures forall k | k in keys :: k in r <==> Active(codes[k], now)
  {
    set k | k in keys && Active(codes[k], now)
  }

  /** The `stats` of `dashboard`. */
  datatype DashboardStats = DashboardStats(totalBatches: nat, totalCodes: nat, codesActifs: nat, codesUtilises: nat)

  /** `dashboard` for `owner` at `now`. */
  function Dashboard(batches: map<BatchId, BatchRow>, codes: map<string, CodeRow>, owner: UserId,
                     now: Instant): (d: DashboardStats)
    ensures d.totalBatches == |set b | b in batches && batches[b].createdBy == Some(owner)|
    ensures d.totalCodes == |OwnedCodes(codes, batches, owner)|
    ensures d.codesActifs == |ActiveCodes(codes, OwnedCodes(codes, batches, owner), now)|
    ensures d.codesUtilises == |WithStatus(codes, OwnedCodes(codes, batches, owner), Utilise)|
    // Active and used codes are disjoint kinds of the owner's codes.
    ensures d.codesActifs + d.codesUtilises <= d.totalCodes
  {
    var owned := OwnedCodes(codes, batches, owner);
    var active := ActiveCodes(codes, owned, now);
    var used := WithStatus(codes, owned, Utilise);
    assert active * used == {};
    assert active + used <= owned;
    assert |active + used| == |active| + |used|;
    SubsetSize(active + used, owned);
    DashboardStats(|set b | b in batches && batches[b].createdBy == Some(owner)|, |owned|, |active|, |used|)
  }

  /** A subset is no larger than its superset. */
  lemma {:induction false} SubsetSize(a: set<string>, b: set<string>)
    requires a <= b
    ensures |a| <= |b|
    decreases |b|
  {
    if a != {} {
      var x :| x in a;
      SubsetSize(a - {x}, b - {x});
    }
  }

  /** Two sets that agree except at `x` differ in size by `x`'s membership. */
  lemma {:induction false} CardExceptOne(s0: set<string>, s1: set<string>, x: string)
    requires s0 - {x} == s1 - {x}
    ensures |s1| + (if x in s0 then 1 else 0) == |s0| + (if x in s1 then 1 else 0)
  {
    if x in s0 {
      assert s0 == (s0 - {x}) + {x};
    }
    if x in s1 {
      assert s1 == (s1 - {x}) + {x};
    }
    assert x !in s0 ==> s0 == s0 - {x};
    assert x !in s1 ==> s1 == s1 - {x};
  }

  /** Setting the status of one code moves the dashboard counts by that code alone: a
      code of another owner changes nothing, and the totals never change. */
  lemma StatusChangeCounts(batches: map<BatchId, BatchRow>, codes: map<string, CodeRow>, index: string,
                           s: CodeStatus, owner: UserId, now: Instant)
    requires index in codes
    ensures
      var after := codes[index := codes[index].(status := s)];
      var d0, d1 := Dashboard(batches, codes, owner, now), Dashboard(batches, after, owner, now);
      && d1.totalBatches == d0.totalBatches && d1.totalCodes == d0.totalCodes
      && (!InScope(codes, batches, index, Some(owner)) ==> d1 == d0)
      && (InScope(codes, batches, index, Some(owner)) ==>
            && d1.codesUtilises + (if codes[index].status == Utilise then 1 else 0)
               == d0.codesUtilises + (if s == Utilise then 1 else 0)
            && d1.codesActifs + (if Active(codes[index], now) then 1 else 0)
               == d0.codesActifs + (if Active(after[index], now) then 1 else 0))
  {
    var after := codes[index := codes[index].(status := s)];
    var owned0, owned1 := OwnedCodes(codes, batches, owner), OwnedCodes(after, batches, owner);
    assert owned1 == owned0;
    var a0, a1 := ActiveCodes(codes, owned0, now), ActiveCodes(after, owned0, now);
    var u0, u1 := WithStatus(codes, owned0, Utilise), WithStatus(after, owned0, Utilise);
    assert a0 - {index} == a1 - {index};
    assert u0 - {index} == u1 - {index};
    CardExceptOne(a0, a1, index);
    CardExceptOne(u0, u1, index);
    if !InScope(codes, batches, index, Some(owner)) {
      assert a0 == a1 && u0 == u1;
    }
  }

  /** What one `verify_code` call does to an owner's dashboard: an activation adds one
      used code and removes the code from the active ones if it was active, an expiry
      removes it from both counts it was in, and every other answer changes nothing. */
  lemma VerifyMovesDashboard(batches: map<BatchId, BatchRow>, codes: map<string, CodeRow>, raw: string,
                             owner: UserId, now: Instant, t: Instant)
    ensures
      var r := Verify(codes, batches, raw, Some(owner), now);
      var index := Strip(raw);
      var d0, d1 := Dashboard(batches, codes, owner, t), Dashboard(batches, r.0, owner, t);
      && d1.totalBatches == d0.totalBatches && d1.totalCodes == d0.totalCodes
      && (r.1.Activated? ==>
            index in codes
            && d1.codesUtilises == d0.codesUtilises + 1
            && d1.codesActifs + (if Active(codes[index], t) then 1 else 0) == d0.codesActifs)
      && (r.1.Expired? ==>
            index in codes
            && d1.codesUtilises + (if codes[index].status == Utilise then 1 else 0) == d0.codesUtilises
            && d1.codesActifs + (if Active(codes[index], t) then 1 else 0) == d0.codesActifs)
      && (!r.1.Activated? && !r.1.Expired? ==> d1 == d0)
  {
    var index := Strip(raw);
    if index != "" && InScope(codes, batches, index, Some(owner)) {
      var row := codes[index];
      if now > row.expirationDate {
        StatusChangeCounts(batches, codes, index, Expire, owner, t);
      } else if row.status == Utilise {
        assert codes[index := row] == codes;
      } else {
        StatusChangeCounts(batches, codes, index, Utilise, owner, t);
      }
    }
  }
}
