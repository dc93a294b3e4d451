/**
 * The generation record store: creation with defaults, lookup by id, and the owner and
 * public listings (filtered, newest first, paged).
 */
module Generations {
  import opened Wrappers
  import opened Text
  import Types
  import Config

  /** The fields a caller supplies when persisting a generation. */
  datatype CreateGenerationInput = CreateGenerationInput(
    url: string,
    storageKey: string,
    mimeType: string,
    width: int,
    height: int,
    duration: Option<int>,
    prompt: string,
    negativePrompt: Option<string>,
    model: string,
    provider: string,
    creditsCost: int,
    outputType: Option<Types.OutputType>,
    isPublic: Option<bool>,
    userId: Option<string>)

  /** A persisted generation; `id` and `createdAt` are assigned by the store. */
  datatype GenerationRecord = GenerationRecord(
    id: string,
    createdAt: int,
    outputType: Types.OutputType,
    url: string,
    storageKey: string,
    mimeType: string,
    width: int,
    height: int,
    duration: Option<int>,
    prompt: string,
    negativePrompt: Option<string>,
    model: string,
    provider: string,
    creditsCost: int,
    isPublic: bool,
    userId: Option<string>)

  const NEGATIVE_SKIP: string := "Invalid value for skip argument: Value can only be positive"

  /** The row `createGeneration` writes for `input`. */
  function MakeRecord(input: CreateGenerationInput, id: string, createdAt: int): GenerationRecord
  {
    GenerationRecord(
      id, createdAt, input.outputType.GetOr(Types.IMAGE), input.url, input.storageKey, input.mimeType,
      input.width, input.height, input.duration, input.prompt, input.negativePrompt, input.model,
      input.provider, input.creditsCost, input.isPublic.GetOr(true), input.userId)
  }

  /** Every supplied field is stored as given; outputType defaults to IMAGE and isPublic to true. */
  lemma CreateCopiesInput(input: CreateGenerationInput, id: string, createdAt: int)
    ensures var r := MakeRecord(input, id, createdAt);
      && r.id == id && r.createdAt == createdAt
      && r.url == input.url && r.storageKey == input.storageKey && r.mimeType == input.mimeType
      && r.width == input.width && r.height == input.height && r.duration == input.duration
      && r.prompt == input.prompt && r.negativePrompt == input.negativePrompt
      && r.model == input.model && r.provider == input.provider
      && r.creditsCost == input.creditsCost && r.userId == input.userId
      && r.outputType == (if input.outputType.None? then Types.IMAGE else input.outputType.value)
      && r.isPublic == (if input.isPublic.None? then true else input.isPublic.value)
  {
  }

  ghost predicate UniqueIds(records: seq<GenerationRecord>) {
    forall i, j :: 0 <= i < j < |records| ==> records[i].id != records[j].id
  }

  // ─── Lookup by id ───────────────────────────────────────────────

  /** `getGenerationById`: the record with that id, or None. */
  function FindById(records: seq<GenerationRecord>, id: string): (r: Option<GenerationRecord>)
    ensures r.Some? ==> r.value in records && r.value.id == id
    ensures r.None? <==> forall i :: 0 <= i < |records| ==> records[i].id != id
  {
    if records == [] then None
    else if records[0].id == id then Some(records[0])
    else FindById(records[1..], id)
  }

  /** After appending a record with a fresh id, lookup finds it, and every other id is found as before. */
  lemma {:induction false} FindAfterAppend(records: seq<GenerationRecord>, rec: GenerationRecord, id: string)
    requires forall i :: 0 <= i < |records| ==> records[i].id != rec.id
    ensures FindById(records + [rec], id) == if id == rec.id then Some(rec) else FindById(records, id)
  {
    if records == [] {
      assert records + [rec] == [rec];
    } else {
      assert (records + [rec])[1..] == records[1..] + [rec];
      if records[0].id != id {
        FindAfterAppend(records[1..], rec, id);
      }
    }
  }

  // ─── Listing ────────────────────────────────────────────────────

  /** Prisma's `where`: the records that satisfy `keep`, in stored order. */
  function Where(records: seq<GenerationRecord>, keep: GenerationRecord -> bool): (r: seq<GenerationRecord>)
    ensures forall i :: 0 <= i < |r| ==> keep(r[i]) && r[i] in records
    ensures forall x :: x in r ==> keep(x) && x in records
    ensures forall i :: 0 <= i < |records| && keep(records[i]) ==> records[i] in r
    ensures forall x :: multiset(r)[x] == if keep(x) then multiset(records)[x] else 0
    ensures |r| <= |records|
  {
    if records == [] then []
    else
      assert records == [records[0]] + records[1..];
      if keep(records[0]) then [records[0]] + Where(records[1..], keep)
      else Where(records[1..], keep)
  }

  /** Filtering keeps stored order: it distributes over concatenation. */
  lemma {:induction false} WhereDistributes(a: seq<GenerationRecord>, b: seq<GenerationRecord>, keep: GenerationRecord -> bool)
    ensures Where(a + b, keep) == Where(a, keep) + Where(b, keep)
  {
    if a == [] {
      assert a + b == b;
    } else {
      assert (a + b)[0] == a[0];
      assert (a + b)[1..] == a[1..] + b;
      WhereDistributes(a[1..], b, keep);
    }
  }

  ghost predicate NewestFirst(records: seq<GenerationRecord>) {
    forall i, j :: 0 <= i < j < |records| ==> records[i].createdAt >= records[j].createdAt
  }

  /** Inserts `rec` before the first record that is not newer than it. */
  function InsertByDate(rec: GenerationRecord, sorted: seq<GenerationRecord>): (r: seq<GenerationRecord>)
    requires NewestFirst(sorted)
    ensures NewestFirst(r)
    ensures multiset(r) == multiset(sorted) + multiset{rec}
    ensures |r| == |sorted| + 1
    ensures forall x :: x in r <==> x in sorted || x == rec
    ensures r != [] && (r[0] == rec || (sorted != [] && r[0] == sorted[0]))
  {
    if sorted == [] || rec.createdAt >= sorted[0].createdAt then [rec] + sorted
    else
      var tail := InsertByDate(rec, sorted[1..]);
      assert sorted == [sorted[0]] + sorted[1..];
      [sorted[0]] + tail
  }

  /** `orderBy: { createdAt: "desc" }`; among equal timestamps the later-stored record comes first. */
  function SortNewestFirst(records: seq<GenerationRecord>): (r: seq<GenerationRecord>)
    ensures NewestFirst(r)
    ensures multiset(r) == multiset(records)
    ensures |r| == |records|
    ensures forall x :: x in r <==> x in records
  {
    if records == [] then []
    else
      var init := records[..|records| - 1];
      assert records == init + [records[|records| - 1]];
      InsertByDate(records[|records| - 1], SortNewestFirst(init))
  }

  /** The number of records before page `page`. */
  function Skip(page: int, limit: nat): int {
    (page - 1) * limit
  }

  /** `skip: (page - 1) * limit, take: limit`; Prisma refuses a negative skip. */
  function Page(records: seq<GenerationRecord>, page: int, limit: nat): (r: Result<seq<GenerationRecord>, string>)
    ensures r.Ok? <==> Skip(page, limit) >= 0
    ensures r.Err? ==> r.error == NEGATIVE_SKIP
    ensures r.Ok? ==> |r.value| <= limit
    ensures r.Ok? && r.value != [] ==> Skip(page, limit) + |r.value| <= |records|
    ensures r.Ok? ==> forall i :: 0 <= i < |r.value| ==> r.value[i] == records[Skip(page, limit) + i]
    ensures r.Ok? && Skip(page, limit) + limit <= |records| ==> |r.value| == limit
    ensures r.Ok? ==> |r.value| == if Skip(page, limit) >= |records| then 0 else Min(limit, |records| - Skip(page, limit))
    ensures page == 1 ==> r == Ok(records[..Min(limit, |records|)])
  {
    var skip := Skip(page, limit);
    if skip < 0 then Err(NEGATIVE_SKIP)
    else Ok(records[Min(skip, |records|)..Min(skip + limit, |records|)])
  }

  /** A page of a newest-first sequence is newest first. */
  lemma PageKeepsOrder(records: seq<GenerationRecord>, page: int, limit: nat)
    requires NewestFirst(records) && Page(records, page, limit).Ok?
    ensures NewestFirst(Page(records, page, limit).value)
  {
    var r := Page(records, page, limit).value;
    var skip := Skip(page, limit);
    forall i, j | 0 <= i < j < |r| ensures r[i].createdAt >= r[j].createdAt {
      assert r[i] == records[skip + i] && r[j] == records[skip + j];
    }
  }

  /** The listing both queries share: filter, newest first, then the requested page. */
  function Listing(records: seq<GenerationRecord>, keep: GenerationRecord -> bool, page: Option<int>, limit: Option<nat>)
    : (r: Result<seq<GenerationRecord>, string>)
    ensures r.Ok? ==> forall i :: 0 <= i < |r.value| ==> keep(r.value[i]) && r.value[i] in records
    ensures r.Ok? ==> NewestFirst(r.value)
    ensures r.Ok? ==> |r.value| <= limit.GetOr(Config.DEFAULT_LIMIT)
    ensures page.None? ==> r.Ok?
    ensures r == Page(SortNewestFirst(Where(records, keep)), page.GetOr(Config.DEFAULT_PAGE), limit.GetOr(Config.DEFAULT_LIMIT))
  {
    var selected := Where(records, keep);
    var sorted := SortNewestFirst(selected);
    var r := Page(sorted, page.GetOr(Config.DEFAULT_PAGE), limit.GetOr(Config.DEFAULT_LIMIT));
    if r.Ok? then
      PageKeepsOrder(sorted, page.GetOr(Config.DEFAULT_PAGE), limit.GetOr(Config.DEFAULT_LIMIT));
      r
    else r
  }

  /** Prisma's `where: { userId }`. */
  function OwnedBy(userId: string): GenerationRecord -> bool {
    (rec: GenerationRecord) => rec.userId == Some(userId)
  }

  /** Prisma's `where: { isPublic: true }`. */
  predicate IsPublic(rec: GenerationRecord) {
    rec.isPublic
  }

  /** `getUserGenerations(userId, { page, limit })`. */
  function GetUserGenerations(records: seq<GenerationRecord>, userId: string, page: Option<int>, limit: Option<nat>)
    : (r: Result<seq<GenerationRecord>, string>)
    ensures r.Ok? ==> forall i :: 0 <= i < |r.value| ==> r.value[i].userId == Some(userId) && r.value[i] in records
    ensures r.Ok? ==> NewestFirst(r.value)
    ensures r.Ok? ==> |r.value| <= limit.GetOr(20)
    ensures r == Page(SortNewestFirst(Where(records, OwnedBy(userId))), page.GetOr(1), limit.GetOr(20))
  {
    Listing(records, OwnedBy(userId), page, limit)
  }

  /** `getPublicGenerations({ page, limit })`. */
  function GetPublicGenerations(records: seq<GenerationRecord>, page: Option<int>, limit: Option<nat>)
    : (r: Result<seq<GenerationRecord>, string>)
    ensures r.Ok? ==> forall i :: 0 <= i < |r.value| ==> r.value[i].isPublic && r.value[i] in records
    ensures r.Ok? ==> NewestFirst(r.value)
    ensures r.Ok? ==> |r.value| <= limit.GetOr(20)
    ensures r == Page(SortNewestFirst(Where(records, IsPublic)), page.GetOr(1), limit.GetOr(20))
  {
    Listing(records, IsPublic, page, limit)
  }

  /** The default page is the first 20 of the matching records, newest first. */
  lemma DefaultPageIsNewestTwenty(records: seq<GenerationRecord>, userId: string)
    ensures var sorted := SortNewestFirst(Where(records, OwnedBy(userId)));
      GetUserGenerations(records, userId, None, None) == Ok(sorted[..Min(20, |sorted|)])
  {
  }

  /** Pages 1 to `n` of a listing, one after the other. */
  function FirstPages(records: seq<GenerationRecord>, limit: nat, n: nat): seq<GenerationRecord>
  {
    if n == 0 then [] else FirstPages(records, limit, n - 1) + Page(records, n, limit).value
  }

  /** Reading pages 1 to `n` in turn yields the first `n * limit` records, with no gap and no repeat. */
  lemma {:induction false} FirstPagesArePrefix(records: seq<GenerationRecord>, limit: nat, n: nat)
    ensures FirstPages(records, limit, n) == records[..Min(n * limit, |records|)]
  {
    if n > 0 {
      FirstPagesArePrefix(records, limit, n - 1);
      assert Skip(n, limit) == (n - 1) * limit && (n - 1) * limit + limit == n * limit;
      var page := Page(records, n, limit).value;
      var lo := Min((n - 1) * limit, |records|);
      assert page == records[lo..Min(n * limit, |records|)];
    }
  }

  /**
   * Paging through a user's generations until the pages hold them all visits each of the user's
   * records exactly as often as it is stored, newest first.
   */
  lemma UserPagesCoverAll(records: seq<GenerationRecord>, userId: string, limit: nat, n: nat)
    requires n * limit >= |Where(records, OwnedBy(userId))|
    ensures var all := FirstPages(SortNewestFirst(Where(records, OwnedBy(userId))), limit, n);
      && NewestFirst(all)
      && forall x :: multiset(all)[x] == if x.userId == Some(userId) then multiset(records)[x] else 0
  {
    var sorted := SortNewestFirst(Where(records, OwnedBy(userId)));
    FirstPagesArePrefix(sorted, limit, n);
    assert sorted[..Min(n * limit, |sorted|)] == sorted;
  }

  /** Paging through the gallery until the pages hold it all visits each public record, newest first. */
  lemma PublicPagesCoverAll(records: seq<GenerationRecord>, limit: nat, n: nat)
    requires n * limit >= |Where(records, IsPublic)|
    ensures var all := FirstPages(SortNewestFirst(Where(records, IsPublic)), limit, n);
      && NewestFirst(all)
      && forall x :: multiset(all)[x] == if x.isPublic then multiset(records)[x] else 0
  {
    var sorted := SortNewestFirst(Where(records, IsPublic));
    FirstPagesArePrefix(sorted, limit, n);
    assert sorted[..Min(n * limit, |sorted|)] == sorted;
  }

  // ─── The store ──────────────────────────────────────────────────

  /** The generation table. */
  class GenerationStore {
    var records: seq<GenerationRecord>

    ghost predicate Valid()
      reads this
    {
      UniqueIds(records)
    }

    constructor()
      ensures Valid() && records == []
    {
      records := [];
    }

    /** `createGeneration`: appends one row; `id` and `createdAt` are the values the database assigns. */
    method Create(input: CreateGenerationInput, id: string, createdAt: int) returns (rec: GenerationRecord)
      requires Valid()
      requires forall i :: 0 <= i < |records| ==> records[i].id != id
      modifies this
      ensures Valid()
      ensures rec == MakeRecord(input, id, createdAt)
      ensures records == old(records) + [rec]
      ensures FindById(records, id) == Some(rec)
    {
      rec := MakeRecord(input, id, createdAt);
      FindAfterAppend(records, rec, id);
      records := records + [rec];
    }
  }
}
