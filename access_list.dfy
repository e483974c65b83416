/**
 * The credential list page: the page window cut from the loaded list, the
 * row numbers, the pagination state, and the records the edit and copy
 * actions open the editor with.
 */
module AccessList {
  import opened Common
  import AccessEditForm

  /** A credential record as the list holds it. */
  datatype AccessModel = AccessModel(
    id: Option<string>, name: string, configType: string,
    config: map<string, string>, created: int, updated: int)

  /** An index argument of `Array.prototype.slice`, resolved against a length. */
  function SliceIndex(i: int, len: nat): (r: nat)
    ensures r <= len
    ensures 0 <= i <= len ==> r == i
    ensures i < 0 && len + i >= 0 ==> r == len + i
    ensures len + i < 0 ==> r == 0
    ensures i > len ==> r == len
  {
    if i < 0 then (if len + i < 0 then 0 else len + i)
    else if i > len then len
    else i
  }

  /** `s.slice(start, end)`, negative indices counting from the end. */
  function Slice<T>(s: seq<T>, start: int, end: int): (r: seq<T>)
    ensures |r| <= |s|
  {
    var a := SliceIndex(start, |s|);
    var b := SliceIndex(end, |s|);
    if a < b then s[a..b] else []
  }

  /** On in-range indices a slice is the subsequence; an empty or reversed range gives nothing; an end past the list clips. */
  lemma SliceInRange<T>(s: seq<T>, start: int, end: int)
    ensures 0 <= start <= end <= |s| ==> Slice(s, start, end) == s[start..end]
    ensures 0 <= end <= start ==> Slice(s, start, end) == []
    ensures 0 <= start <= |s| < end ==> Slice(s, start, end) == s[start..]
  {
  }

  /** What the list request resolves with. */
  datatype PageData<T> = PageData(items: seq<T>, totalItems: nat)

  /** The first global index shown on a page. */
  function StartIndex(page: int, pageSize: int): int
  {
    (page - 1) * pageSize
  }

  /**
   * The list request for a page: the window starting at `(page-1)*pageSize`,
   * at most `pageSize` long and clipped to the list's end, with the whole
   * list's length as the total. Pages start at 1.
   */
  function Page<T>(accesses: seq<T>, page: int, pageSize: int): (d: PageData<T>)
    ensures d.totalItems == |accesses|
    ensures page >= 1 && pageSize >= 0 ==> |d.items| <= pageSize
    ensures page >= 1 && pageSize >= 0 && StartIndex(page, pageSize) >= |accesses| ==> d.items == []
    ensures page >= 1 && pageSize >= 0 && StartIndex(page, pageSize) < |accesses| ==>
              var start := StartIndex(page, pageSize);
              d.items == accesses[start..if start + pageSize < |accesses| then start + pageSize else |accesses|]
  {
    var startIndex := StartIndex(page, pageSize);
    StartIndexNonNegative(page, pageSize);
    PageData(Window(accesses, startIndex, pageSize), |accesses|)
  }

  /** `slice(start, start + size)` from a non-negative start: at most `size` items, clipped to the end. */
  function Window<T>(accesses: seq<T>, start: int, size: int): (w: seq<T>)
    ensures start >= 0 && size >= 0 ==> |w| <= size
    ensures start >= 0 && size >= 0 && start >= |accesses| ==> w == []
    ensures start >= 0 && size >= 0 && start < |accesses| ==>
              w == accesses[start..if start + size < |accesses| then start + size else |accesses|]
  {
    SliceInRange(accesses, start, start + size);
    Slice(accesses, start, start + size)
  }

  /** Pages start at 1, so the first index of a page is never negative. */
  lemma StartIndexNonNegative(page: int, pageSize: int)
    ensures page >= 1 && pageSize >= 0 ==> StartIndex(page, pageSize) >= 0
  {
    if page >= 1 && pageSize >= 0 {
      MulNonNegative(page - 1, pageSize);
    }
  }

  /**
   * The number shown in a row's index column: on the first page it is the
   * row's index plus one, and on any page it is at least that.
   */
  function RowNumber(page: int, pageSize: int, index: int): (n: int)
    ensures page == 1 ==> n == index + 1
    ensures page >= 1 && pageSize >= 0 ==> n >= index + 1
  {
    if page >= 1 && pageSize >= 0 then MulNonNegative(page - 1, pageSize); (page - 1) * pageSize + index + 1
    else (page - 1) * pageSize + index + 1
  }

  /** The row at index `i` of a page shows the record whose position in the list is its row number less one. */
  lemma RowShowsNumberedRecord<T>(accesses: seq<T>, page: int, pageSize: int, i: nat)
    requires page >= 1 && pageSize >= 0 && i < |Page(accesses, page, pageSize).items|
    ensures 0 <= RowNumber(page, pageSize, i) - 1 < |accesses|
    ensures Page(accesses, page, pageSize).items[i] == accesses[RowNumber(page, pageSize, i) - 1]
  {
    var start := StartIndex(page, pageSize);
    StartIndexNonNegative(page, pageSize);
    assert RowNumber(page, pageSize, i) - 1 == start + i;
    assert start < |accesses|;
  }

  /**
   * Every record of the list is shown on page `j / pageSize + 1`, at row
   * `j % pageSize`, numbered `j + 1`.
   */
  lemma EveryRecordOnAPage<T>(accesses: seq<T>, pageSize: int, j: nat)
    requires pageSize >= 1 && j < |accesses|
    ensures var page := j / pageSize + 1;
            var items := Page(accesses, page, pageSize).items;
            j % pageSize < |items| && items[j % pageSize] == accesses[j] &&
            RowNumber(page, pageSize, j % pageSize) == j + 1
  {
    var q, r := j / pageSize, j % pageSize;
    var start := q * pageSize;
    assert StartIndex(q + 1, pageSize) == start;
    MulNonNegative(q, pageSize);
    assert start + r == j;
    var items := Page(accesses, q + 1, pageSize).items;
    assert items == accesses[start..if start + pageSize < |accesses| then start + pageSize else |accesses|];
    assert items[r] == accesses[j];
  }

  /** No record is shown on two pages or two rows: the row numbered `j + 1` is only that one. */
  lemma EveryRecordOnOnePage<T>(accesses: seq<T>, pageSize: int, j: nat, page: int, i: int)
    requires pageSize >= 1 && j < |accesses|
    requires page >= 1 && 0 <= i < |Page(accesses, page, pageSize).items|
    requires RowNumber(page, pageSize, i) == j + 1
    ensures page == j / pageSize + 1 && i == j % pageSize
  {
    MulNonNegative(page - 1, pageSize);
    assert i < pageSize;
    assert j == (page - 1) * pageSize + i;
    DivModUnique(j, pageSize, page - 1, i);
  }

  lemma MulNonNegative(a: int, b: int)
    requires a >= 0 && b >= 0
    ensures a * b >= 0
  {
  }

  /** `k * d` grows by `d` with each step of `k`. */
  lemma {:induction false} MulAtLeast(k: nat, d: nat)
    requires k >= 1
    ensures k * d >= d
  {
    if k > 1 {
      MulAtLeast(k - 1, d);
      assert k * d == (k - 1) * d + d;
    }
  }

  /** Quotient and remainder are unique. */
  lemma DivModUnique(j: nat, d: int, q: int, r: int)
    requires d >= 1 && 0 <= r < d && q >= 0 && j == q * d + r
    ensures q == j / d && r == j % d
  {
    var q', r' := j / d, j % d;
    assert j == q' * d + r';
    assert q' >= 0;
    if q < q' {
      MulAtLeast(q' - q, d);
      assert false;
    } else if q > q' {
      MulAtLeast(q - q', d);
      assert false;
    }
  }

  /** The table's pagination state. */
  datatype Pagination = Pagination(page: int, pageSize: int)

  /** `useState(1)` and `useState(10)`: the list opens on page 1 with ten rows a page. */
  const InitialPagination := Pagination(1, 10)

  /** On opening, the table shows the first ten records (all of them when there are fewer), numbered from 1. */
  lemma FirstPageShowsFirstRecords<T>(accesses: seq<T>)
    ensures var items := Page(accesses, InitialPagination.page, InitialPagination.pageSize).items;
            items == accesses[..if |accesses| < 10 then |accesses| else 10]
    ensures forall i :: 0 <= i < 10 ==> RowNumber(InitialPagination.page, InitialPagination.pageSize, i) == i + 1
  {
    assert StartIndex(1, 10) == 0;
  }

  /** `onChange` and `onShowSizeChange`: both replace page and size with the new ones. */
  function OnPaginationChange(state: Pagination, page: int, pageSize: int): (r: Pagination)
    ensures r.page == page && r.pageSize == pageSize
  {
    state.(page := page, pageSize := pageSize)
  }

  /** The record the copy action opens: the same record without its id and with "-copy" added to its name. */
  function CopyOf(record: AccessModel): (c: AccessModel)
    ensures c.id.None? && c.name == record.name + "-copy"
    ensures c.(id := record.id, name := record.name) == record
    ensures |c.name| == |record.name| + 5 && c.name[..|record.name|] == record.name
  {
    record.(id := None, name := record.name + "-copy")
  }

  /** What opening the editor modal receives: the mode and the record. */
  datatype EditorRequest = EditorRequest(mode: AccessEditForm.Mode, data: AccessModel)

  datatype RowAction = EditAction | CopyAction

  /**
   * The row actions: edit opens the record unchanged in `Edit` mode, copy
   * opens its copy in `Add` mode (so the copy's type can still be chosen).
   */
  function OpenEditor(action: RowAction, record: AccessModel): (r: EditorRequest)
    ensures action == EditAction ==> r.mode == AccessEditForm.Edit && r.data == record
    ensures action == CopyAction ==> r.mode == AccessEditForm.Add && r.data == CopyOf(record)
  {
    match action
    case EditAction => EditorRequest(AccessEditForm.Edit, record)
    case CopyAction => EditorRequest(AccessEditForm.Add, CopyOf(record))
  }
}
