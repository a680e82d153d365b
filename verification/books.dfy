/** The library sample's in-memory book store
    (samples/LibraryManagement/Services/BookService.cs): one list of books
    shared by every instance of the service, an identity counter, and the
    create, update, restock, delete and query operations the sample exposes.
    Prices are whole hundredths (the source's `decimal`), dates are opaque
    instants, and the case mapping used by the case-insensitive filters is a
    parameter. */
module Books {
  import opened Base

  datatype Book = Book(
    id: int, isbn: string, title: string, author: string, publishDate: int,
    category: string, price: int, stockQuantity: int, description: string)

  datatype CreateBookDto = CreateBookDto(
    isbn: string, title: string, author: string, publishDate: int,
    category: string, price: int, stockQuantity: int, description: string)

  /** Every field optional: an absent or blank one leaves the book's value. */
  datatype UpdateBookDto = UpdateBookDto(
    title: Option<string>, author: Option<string>, category: Option<string>,
    price: Option<int>, stockQuantity: Option<int>, description: Option<string>)

  datatype BookQueryDto = BookQueryDto(
    title: Option<string>, author: Option<string>, category: Option<string>,
    minPrice: Option<int>, maxPrice: Option<int>, pageNumber: int, pageSize: int)

  datatype PagedResult = PagedResult(items: seq<Book>, totalCount: int, pageNumber: int, pageSize: int)

  /** The shared list, in insertion order, and the next identity. */
  datatype Library = Library(books: seq<Book>, nextId: int)

  /** The library after an operation, and what the operation returns. */
  datatype Change<T> = Change(after: Library, result: T)

  predicate BookBefore(a: Book, b: Book) {
    a.id < b.id && a.isbn != b.isbn
  }

  /** Identities ascend in list order and stay below the counter, and no
      two books share an ISBN. */
  predicate Consistent(l: Library) {
    Pairwise(l.books, BookBefore) && forall i :: 0 <= i < |l.books| ==> l.books[i].id < l.nextId
  }

  // ---------------------------------------------------------------------------
  // The seeded list and the counter's first value.

  function SeedBooks(): seq<Book> {
    [ Book(1, "9787302164340", "算法导论", "Thomas H. Cormen", 20090101, "计算机科学", 8500, 100,
           "《算法导论》是一本算法教材，全面介绍了算法设计与分析。"),
      Book(2, "9787115546081", "C# 10.0本质论", "Mark Michaelis", 20220301, "编程语言", 11900, 50,
           "《C# 10.0本质论》是一本全面介绍C#编程语言的书籍。"),
      Book(3, "9787115583864", "ASP.NET Core微服务实战", "Kevin Hoffman", 20210501, "Web开发", 7900, 30,
           "本书介绍如何使用ASP.NET Core构建微服务架构。") ]
  }

  /** The largest identity in a non-empty list. */
  function MaxId(books: seq<Book>): (m: int)
    requires books != []
    ensures forall i :: 0 <= i < |books| ==> books[i].id <= m
    ensures exists i :: 0 <= i < |books| && books[i].id == m
  {
    if |books| == 1 then books[0].id
    else
      var m := MaxId(books[..|books| - 1]);
      if books[|books| - 1].id > m then books[|books| - 1].id else m
  }

  /** The counter's initial value: one past the largest identity, or 1. */
  function NextIdAfter(books: seq<Book>): (n: int)
    ensures forall i :: 0 <= i < |books| ==> books[i].id < n
  {
    if |books| > 0 then MaxId(books) + 1 else 1
  }

  lemma SeedIsConsistent()
    ensures NextIdAfter(SeedBooks()) == 4
    ensures Consistent(Library(SeedBooks(), NextIdAfter(SeedBooks())))
  {
    var s := SeedBooks();
    assert s[..2][..1] == [s[0]];
    assert s[..2] == [s[0], s[1]];
    assert s[..|s| - 1] == s[..2];
  }

  // ---------------------------------------------------------------------------
  // Lookups.

  function HasId(id: int): Book -> bool {
    (b: Book) => b.id == id
  }

  function HasIsbn(isbn: string): Book -> bool {
    (b: Book) => b.isbn == isbn
  }

  /** `GetBookById`: the first book with that identity, or null. */
  function FindById(books: seq<Book>, id: int): (r: Option<Book>)
    ensures r.Some? ==> r.value in books && r.value.id == id
    ensures r.None? <==> forall j :: 0 <= j < |books| ==> books[j].id != id
  {
    match FirstWhere(books, HasId(id))
    case None => None
    case Some(i) => Some(books[i])
  }

  /** `GetBookByISBN`: the first book with that ISBN, or null. */
  function FindByIsbn(books: seq<Book>, isbn: string): (r: Option<Book>)
    ensures r.Some? ==> r.value in books && r.value.isbn == isbn
    ensures r.None? <==> forall j :: 0 <= j < |books| ==> books[j].isbn != isbn
  {
    match FirstWhere(books, HasIsbn(isbn))
    case None => None
    case Some(i) => Some(books[i])
  }

  /** In a consistent library the book at `i` is the one its identity finds. */
  lemma FirstWithId(l: Library, i: nat)
    requires Consistent(l) && i < |l.books|
    ensures FirstWhere(l.books, HasId(l.books[i].id)) == Some(i)
  {
  }

  // ---------------------------------------------------------------------------
  // CreateBook.

  predicate IsbnTaken(books: seq<Book>, isbn: string) {
    exists j :: 0 <= j < |books| && books[j].isbn == isbn
  }

  function NewBook(dto: CreateBookDto, id: int): Book {
    Book(id, dto.isbn, dto.title, dto.author, dto.publishDate, dto.category, dto.price, dto.stockQuantity, dto.description)
  }

  /** `CreateBook`: refused for an ISBN already in the list; otherwise the
      book takes the counter's identity and is appended. */
  function Create(l: Library, dto: CreateBookDto): (c: Change<Result<Book>>)
    ensures c.result.Failure? <==> IsbnTaken(l.books, dto.isbn)
    ensures c.result.Failure? ==> c.after == l && c.result.error == DuplicateIsbn(dto.isbn)
    ensures c.result.Success? ==> c.after.books == l.books + [c.result.value]
    ensures c.result.Success? ==> c.result.value.id == l.nextId && c.after.nextId == l.nextId + 1
    ensures c.result.Success? ==> c.result.value.isbn == dto.isbn
  {
    if IsbnTaken(l.books, dto.isbn) then Change(l, Failure(DuplicateIsbn(dto.isbn)))
    else Change(Library(l.books + [NewBook(dto, l.nextId)], l.nextId + 1), Success(NewBook(dto, l.nextId)))
  }

  /** A created book is newer than every stored one, is found by both its
      identity and its ISBN afterwards, and the library stays consistent. */
  lemma CreateKeepsConsistent(l: Library, dto: CreateBookDto)
    requires Consistent(l)
    ensures Consistent(Create(l, dto).after)
    ensures Create(l, dto).result.Success? ==>
      && (forall j :: 0 <= j < |l.books| ==> l.books[j].id < Create(l, dto).result.value.id)
      && FindById(Create(l, dto).after.books, l.nextId) == Some(Create(l, dto).result.value)
      && FindByIsbn(Create(l, dto).after.books, dto.isbn) == Some(Create(l, dto).result.value)
  {
    var c := Create(l, dto);
    if c.result.Success? {
      var b := c.result.value;
      forall i, j | 0 <= i < |l.books| && 0 <= j < 1
        ensures BookBefore(l.books[i], [b][j])
      {
        assert l.books[i].isbn != dto.isbn;
      }
      AppendKeepsPairwise(l.books, [b], BookBefore);
      FirstWithId(c.after, |l.books|);
    }
  }

  // ---------------------------------------------------------------------------
  // UpdateBook.

  /** A text field is overwritten only by a non-blank value. */
  function Overwrite(current: string, given: Option<string>): (r: string)
    ensures IsNullOrWhiteSpace(given) ==> r == current
    ensures !IsNullOrWhiteSpace(given) ==> given.Some? && r == given.value
  {
    if IsNullOrWhiteSpace(given) then current else given.value
  }

  /** The book after `UpdateBook`: each text field is replaced by a non-blank
      value, each number by a present one; the rest is kept. */
  function ApplyUpdate(b: Book, dto: UpdateBookDto): (r: Book)
    ensures r.id == b.id && r.isbn == b.isbn && r.publishDate == b.publishDate
    ensures IsNullOrWhiteSpace(dto.title) ==> r.title == b.title
    ensures !IsNullOrWhiteSpace(dto.title) ==> r.title == dto.title.value
    ensures IsNullOrWhiteSpace(dto.author) ==> r.author == b.author
    ensures !IsNullOrWhiteSpace(dto.author) ==> r.author == dto.author.value
    ensures IsNullOrWhiteSpace(dto.category) ==> r.category == b.category
    ensures !IsNullOrWhiteSpace(dto.category) ==> r.category == dto.category.value
    ensures dto.price.None? ==> r.price == b.price
    ensures dto.price.Some? ==> r.price == dto.price.value
    ensures dto.stockQuantity.None? ==> r.stockQuantity == b.stockQuantity
    ensures dto.stockQuantity.Some? ==> r.stockQuantity == dto.stockQuantity.value
    ensures IsNullOrWhiteSpace(dto.description) ==> r.description == b.description
    ensures !IsNullOrWhiteSpace(dto.description) ==> r.description == dto.description.value
  {
    b.(title := Overwrite(b.title, dto.title), author := Overwrite(b.author, dto.author),
       category := Overwrite(b.category, dto.category), price := dto.price.GetOr(b.price),
       stockQuantity := dto.stockQuantity.GetOr(b.stockQuantity),
       description := Overwrite(b.description, dto.description))
  }

  /** Applying the same update twice is applying it once. */
  lemma UpdateIdempotent(b: Book, dto: UpdateBookDto)
    ensures ApplyUpdate(ApplyUpdate(b, dto), dto) == ApplyUpdate(b, dto)
  {
  }

  /** An update whose text fields are all blank and whose numbers are all
      absent changes nothing; a non-blank title replaces the title. */
  lemma BlankUpdateKeepsBook(b: Book, dto: UpdateBookDto)
    ensures !IsNullOrWhiteSpace(dto.title) ==> ApplyUpdate(b, dto).title == dto.title.value
    ensures IsNullOrWhiteSpace(dto.title) && IsNullOrWhiteSpace(dto.author) && IsNullOrWhiteSpace(dto.category)
         && IsNullOrWhiteSpace(dto.description) && dto.price.None? && dto.stockQuantity.None?
         ==> ApplyUpdate(b, dto) == b
  {
  }

  /** `UpdateBook`: null for an unknown identity; otherwise the first book
      with that identity is rewritten in place. */
  function Update(l: Library, id: int, dto: UpdateBookDto): (c: Change<Option<Book>>)
    ensures c.result.None? <==> forall j :: 0 <= j < |l.books| ==> l.books[j].id != id
    ensures c.result.None? ==> c.after == l
    ensures c.after.nextId == l.nextId && |c.after.books| == |l.books|
  {
    match FirstWhere(l.books, HasId(id))
    case None => Change(l, None)
    case Some(i) =>
      var b := ApplyUpdate(l.books[i], dto);
      Change(l.(books := l.books[i := b]), Some(b))
  }

  /** Rewriting one book under its own identity and ISBN keeps the library consistent. */
  lemma ReplaceKeepsConsistent(l: Library, i: nat, b: Book)
    requires Consistent(l) && i < |l.books|
    requires b.id == l.books[i].id && b.isbn == l.books[i].isbn
    ensures Consistent(l.(books := l.books[i := b]))
  {
    var bs := l.books[i := b];
    forall x, y | 0 <= x < y < |bs|
      ensures BookBefore(bs[x], bs[y])
    {
      assert BookBefore(l.books[x], l.books[y]);
    }
  }

  /** In a consistent library an update touches exactly the book with that
      identity and keeps the library consistent. */
  lemma UpdateTouchesOnlyTarget(l: Library, id: int, dto: UpdateBookDto, i: nat)
    requires Consistent(l) && i < |l.books| && l.books[i].id == id
    ensures Update(l, id, dto) == Change(l.(books := l.books[i := ApplyUpdate(l.books[i], dto)]), Some(ApplyUpdate(l.books[i], dto)))
    ensures Consistent(Update(l, id, dto).after)
  {
    FirstWithId(l, i);
    ReplaceKeepsConsistent(l, i, ApplyUpdate(l.books[i], dto));
  }

  // ---------------------------------------------------------------------------
  // UpdateBookStock.

  /** `UpdateBookStock`: null for an unknown identity; refused when the new
      stock, computed in 32-bit arithmetic, is negative; otherwise the stock
      becomes that value. */
  function Restock(l: Library, id: int, change: int): (c: Change<Result<Option<Book>>>)
    ensures c.result == Success(None) <==> forall j :: 0 <= j < |l.books| ==> l.books[j].id != id
    ensures c.result.Failure? ==> c.after == l && c.result.error == InsufficientStock
    ensures c.result.Success? && c.result.value.Some? ==> c.result.value.value.stockQuantity >= 0
    ensures c.after.nextId == l.nextId && |c.after.books| == |l.books|
  {
    match FirstWhere(l.books, HasId(id))
    case None => Change(l, Success(None))
    case Some(i) =>
      var newStock := Wrap32(l.books[i].stockQuantity + change);
      if newStock < 0 then Change(l, Failure(InsufficientStock))
      else
        var b := l.books[i].(stockQuantity := newStock);
        Change(l.(books := l.books[i := b]), Success(Some(b)))
  }

  /** Without overflow, a change that keeps the stock non-negative is added
      to that one book, and one that would make it negative is refused with
      nothing changed. */
  lemma RestockAddsChange(l: Library, id: int, change: int, i: nat)
    requires Consistent(l) && i < |l.books| && l.books[i].id == id
    requires InInt32(l.books[i].stockQuantity + change)
    ensures l.books[i].stockQuantity + change >= 0 ==>
      Restock(l, id, change).after.books == l.books[i := l.books[i].(stockQuantity := l.books[i].stockQuantity + change)]
    ensures l.books[i].stockQuantity + change < 0 ==> Restock(l, id, change) == Change(l, Failure(InsufficientStock))
    ensures Consistent(Restock(l, id, change).after)
  {
    FirstWithId(l, i);
    ReplaceKeepsConsistent(l, i, l.books[i].(stockQuantity := Wrap32(l.books[i].stockQuantity + change)));
  }

  /** The 32-bit sum wraps: adding the largest `int` to a stock of 100 is
      refused as insufficient stock. */
  lemma RestockOverflowRefused(l: Library, i: nat)
    requires Consistent(l) && i < |l.books| && l.books[i].stockQuantity == 100
    ensures Restock(l, l.books[i].id, Int32Max) == Change(l, Failure(InsufficientStock))
  {
    FirstWithId(l, i);
    assert Wrap32(100 + Int32Max) == 100 + Int32Max - 0x1_0000_0000;
  }

  // ---------------------------------------------------------------------------
  // DeleteBook and DeleteBooks.

  function OtherId(id: int): Book -> bool {
    (b: Book) => b.id != id
  }

  /** `DeleteBook`: removes the first book with that identity. */
  function Delete(l: Library, id: int): (c: Change<bool>)
    ensures c.result <==> exists j :: 0 <= j < |l.books| && l.books[j].id == id
    ensures !c.result ==> c.after == l
    ensures c.result ==> |c.after.books| == |l.books| - 1
    ensures c.after.nextId == l.nextId
  {
    match FirstWhere(l.books, HasId(id))
    case None => Change(l, false)
    case Some(i) => Change(l.(books := l.books[..i] + l.books[i + 1..]), true)
  }

  /** In a consistent library, deleting drops exactly the books with that
      identity and keeps the library consistent. */
  lemma DeleteDropsId(l: Library, id: int)
    requires Consistent(l)
    ensures Delete(l, id).after.books == Filter(l.books, OtherId(id))
    ensures Consistent(Delete(l, id).after)
  {
    var after := Delete(l, id).after;
    FilterMembers(l.books, OtherId(id));
    FilterKeepsPairwise(l.books, OtherId(id), BookBefore);
    match FirstWhere(l.books, HasId(id))
    case None =>
      FilterKeepsAll(l.books, OtherId(id));
    case Some(i) =>
      forall j | 0 <= j < |l.books| && j != i
        ensures OtherId(id)(l.books[j])
      {
        if j < i {
          assert BookBefore(l.books[j], l.books[i]);
        } else {
          assert BookBefore(l.books[i], l.books[j]);
        }
      }
      FilterDropsOne(l.books, OtherId(id), i);
    forall k | 0 <= k < |after.books|
      ensures after.books[k].id < after.nextId
    {
      assert after.books[k] in l.books;
    }
  }

  function NotListed(ids: seq<int>): Book -> bool {
    (b: Book) => b.id !in ids
  }

  /** `DeleteBooks`: `DeleteBook` for each identity in turn, counting the
      ones that removed a book. */
  function DeleteAll(l: Library, ids: seq<int>): Change<int> {
    if ids == [] then Change(l, 0)
    else
      var c := DeleteAll(l, ids[..|ids| - 1]);
      var d := Delete(c.after, ids[|ids| - 1]);
      Change(d.after, c.result + if d.result then 1 else 0)
  }

  /** In a consistent library, deleting a list of identities leaves exactly
      the books whose identity is not listed, in their order, and the count
      is the number of books removed, at most one per listed identity. */
  lemma {:induction false} DeleteAllDropsListed(l: Library, ids: seq<int>)
    requires Consistent(l)
    ensures Consistent(DeleteAll(l, ids).after)
    ensures DeleteAll(l, ids).after.books == Filter(l.books, NotListed(ids))
    ensures DeleteAll(l, ids).result == |l.books| - |DeleteAll(l, ids).after.books|
    ensures 0 <= DeleteAll(l, ids).result <= |ids|
  {
    if ids == [] {
      FilterKeepsAll(l.books, NotListed(ids));
    } else {
      var init, x := ids[..|ids| - 1], ids[|ids| - 1];
      assert ids == init + [x];
      DeleteAllDropsListed(l, init);
      var c := DeleteAll(l, init);
      DeleteDropsId(c.after, x);
      var kept := Filter(l.books, NotListed(init));
      FilterMembers(l.books, NotListed(init));
      forall i | 0 <= i < |kept|
        ensures OtherId(x)(kept[i]) == NotListed(ids)(kept[i])
      {
        assert kept[i] in kept;
      }
      FilterSameOn(kept, OtherId(x), NotListed(ids));
      FilterFilter(l.books, NotListed(init), NotListed(ids));
    }
  }

  /** An identity listed a second time removes nothing more. */
  lemma RepeatedIdCountsNothing(l: Library, ids: seq<int>, x: int)
    requires Consistent(l) && x in ids
    ensures DeleteAll(l, ids + [x]) == DeleteAll(l, ids)
  {
    assert (ids + [x])[..|ids + [x]| - 1] == ids;
    DeleteAllDropsListed(l, ids);
    var c := DeleteAll(l, ids);
    FilterMembers(l.books, NotListed(ids));
    forall j | 0 <= j < |c.after.books|
      ensures c.after.books[j].id != x
    {
      assert c.after.books[j] in c.after.books;
    }
  }

  // ---------------------------------------------------------------------------
  // QueryBooks.

  /** The case mapping applied to every character. */
  function Fold(s: string, fold: char -> char): (r: string)
    ensures |r| == |s| && forall i :: 0 <= i < |s| ==> r[i] == fold(s[i])
  {
    seq(|s|, i requires 0 <= i < |s| => fold(s[i]))
  }

  /** `Contains(part, StringComparison.OrdinalIgnoreCase)`, with the case mapping a parameter. */
  predicate ContainsIgnoringCase(s: string, part: string, fold: char -> char) {
    Contains(Fold(s, fold), Fold(part, fold))
  }

  function TitleHas(part: string, fold: char -> char): Book -> bool {
    (b: Book) => ContainsIgnoringCase(b.title, part, fold)
  }

  function AuthorHas(part: string, fold: char -> char): Book -> bool {
    (b: Book) => ContainsIgnoringCase(b.author, part, fold)
  }

  function InCategory(category: string): Book -> bool {
    (b: Book) => b.category == category
  }

  function PriceAtLeast(min: int): Book -> bool {
    (b: Book) => b.price >= min
  }

  function PriceAtMost(max: int): Book -> bool {
    (b: Book) => b.price <= max
  }

  /** A `Where` applied only when its filter is active. */
  function Narrow(books: seq<Book>, active: bool, p: Book -> bool): seq<Book> {
    if active then Filter(books, p) else books
  }

  /** The filter chain of `QueryBooks`, in the source's order. */
  function Matching(books: seq<Book>, q: BookQueryDto, fold: char -> char): seq<Book> {
    var byTitle := Narrow(books, !IsNullOrWhiteSpace(q.title), TitleHas(q.title.GetOr(""), fold));
    var byAuthor := Narrow(byTitle, !IsNullOrWhiteSpace(q.author), AuthorHas(q.author.GetOr(""), fold));
    var byCategory := Narrow(byAuthor, !IsNullOrWhiteSpace(q.category), InCategory(q.category.GetOr("")));
    var byMin := Narrow(byCategory, q.minPrice.Some?, PriceAtLeast(q.minPrice.GetOr(0)));
    Narrow(byMin, q.maxPrice.Some?, PriceAtMost(q.maxPrice.GetOr(0)))
  }

  /** Every active filter, as one condition on a book. */
  predicate Admits(q: BookQueryDto, fold: char -> char, b: Book) {
    && (!IsNullOrWhiteSpace(q.title) ==> ContainsIgnoringCase(b.title, q.title.value, fold))
    && (!IsNullOrWhiteSpace(q.author) ==> ContainsIgnoringCase(b.author, q.author.value, fold))
    && (!IsNullOrWhiteSpace(q.category) ==> b.category == q.category.value)
    && (q.minPrice.Some? ==> b.price >= q.minPrice.value)
    && (q.maxPrice.Some? ==> b.price <= q.maxPrice.value)
  }

  lemma NarrowMembers(books: seq<Book>, active: bool, p: Book -> bool)
    ensures forall b :: b in Narrow(books, active, p) <==> b in books && (active ==> p(b))
  {
    if active {
      FilterMembers(books, p);
    }
  }

  /** A book survives the filter chain exactly when it is stored and every
      active filter admits it. */
  lemma MatchingAdmits(books: seq<Book>, q: BookQueryDto, fold: char -> char)
    ensures forall b :: b in Matching(books, q, fold) <==> b in books && Admits(q, fold, b)
  {
    var byTitle := Narrow(books, !IsNullOrWhiteSpace(q.title), TitleHas(q.title.GetOr(""), fold));
    var byAuthor := Narrow(byTitle, !IsNullOrWhiteSpace(q.author), AuthorHas(q.author.GetOr(""), fold));
    var byCategory := Narrow(byAuthor, !IsNullOrWhiteSpace(q.category), InCategory(q.category.GetOr("")));
    var byMin := Narrow(byCategory, q.minPrice.Some?, PriceAtLeast(q.minPrice.GetOr(0)));
    NarrowMembers(books, !IsNullOrWhiteSpace(q.title), TitleHas(q.title.GetOr(""), fold));
    NarrowMembers(byTitle, !IsNullOrWhiteSpace(q.author), AuthorHas(q.author.GetOr(""), fold));
    NarrowMembers(byAuthor, !IsNullOrWhiteSpace(q.category), InCategory(q.category.GetOr("")));
    NarrowMembers(byCategory, q.minPrice.Some?, PriceAtLeast(q.minPrice.GetOr(0)));
    NarrowMembers(byMin, q.maxPrice.Some?, PriceAtMost(q.maxPrice.GetOr(0)));
  }

  /** `QueryBooks`: the total number of matching books and one page of them,
      the offset `(PageNumber - 1) * PageSize` computed in 32-bit arithmetic. */
  function Query(books: seq<Book>, q: BookQueryDto, fold: char -> char): (r: PagedResult)
    ensures r.pageNumber == q.pageNumber && r.pageSize == q.pageSize
    ensures r.totalCount == |Matching(books, q, fold)| && |r.items| <= r.totalCount
  {
    var matching := Matching(books, q, fold);
    var skip := Wrap32(Wrap32(q.pageNumber - 1) * q.pageSize);
    PagedResult(Page(matching, skip, q.pageSize), |matching|, q.pageNumber, q.pageSize)
  }

  /** The 32-bit offset of page `k / size + 1` is `(k / size) * size`. */
  lemma PageOffset(k: nat, size: int)
    requires 0 < size && k < Int32Max
    ensures Wrap32(Wrap32(k / size + 1 - 1) * size) == (k / size) * size
  {
    var p := k / size;
    assert 0 <= p * size <= k by {
      assert p * size + k % size == k;
    }
  }

  /** Every listed book is stored and admitted by every active filter. */
  lemma QueryListsAdmitted(books: seq<Book>, q: BookQueryDto, fold: char -> char)
    ensures forall b :: b in Query(books, q, fold).items ==> b in books && Admits(q, fold, b)
  {
    MatchingAdmits(books, q, fold);
    var m := Matching(books, q, fold);
    var items := Query(books, q, fold).items;
    forall b | b in items
      ensures b in m
    {
      var j :| 0 <= j < |items| && items[j] == b;
    }
  }

  /** With a page size of at least one, the `k`-th matching book is item
      `k % PageSize` of page `k / PageSize + 1`. */
  lemma QueryPagesCover(books: seq<Book>, q: BookQueryDto, fold: char -> char, k: nat)
    requires 0 < q.pageSize && k < |Matching(books, q, fold)| && k < Int32Max
    ensures var r := Query(books, q.(pageNumber := k / q.pageSize + 1), fold);
      k % q.pageSize < |r.items| && r.items[k % q.pageSize] == Matching(books, q, fold)[k]
  {
    var size := q.pageSize;
    var m := Matching(books, q, fold);
    var q' := q.(pageNumber := k / size + 1);
    PageOffset(k, size);
    assert Matching(books, q', fold) == m;
    assert Query(books, q', fold).items == Page(m, (k / size) * size, size);
    PageHolds(Matching(books, q, fold), size, k);
  }

  // ---------------------------------------------------------------------------
  // The service object.

  /** `BookService`: its list and counter are static in the source, so every
      instance shares them; one object stands for that shared state here. */
  class BookService {
    var books: seq<Book>
    var nextId: int

    function State(): Library
      reads this
    {
      Library(books, nextId)
    }

    ghost predicate Valid()
      reads this
    {
      Consistent(State())
    }

    /** The seeded list of three books, the counter one past their largest identity. */
    constructor ()
      ensures State() == Library(SeedBooks(), 4)
      ensures Valid()
    {
      books := SeedBooks();
      nextId := NextIdAfter(SeedBooks());
      SeedIsConsistent();
    }

    /** `GetAllBooks`: a copy of the list, in order. */
    method GetAllBooks() returns (r: seq<Book>)
      ensures r == books
    {
      r := books;
    }

    method GetBookById(id: int) returns (r: Option<Book>)
      ensures r == FindById(books, id)
    {
      r := FindById(books, id);
    }

    method GetBookByIsbn(isbn: string) returns (r: Option<Book>)
      ensures r == FindByIsbn(books, isbn)
    {
      r := FindByIsbn(books, isbn);
    }

    method QueryBooks(q: BookQueryDto, fold: char -> char) returns (r: PagedResult)
      ensures r == Query(books, q, fold)
    {
      r := Query(books, q, fold);
    }

    method CreateBook(dto: CreateBookDto) returns (r: Result<Book>)
      requires Valid()
      modifies this
      ensures Change(State(), r) == Create(old(State()), dto)
      ensures Valid()
    {
      CreateKeepsConsistent(State(), dto);
      if exists j :: 0 <= j < |books| && books[j].isbn == dto.isbn {
        return Failure(DuplicateIsbn(dto.isbn));
      }
      var book := NewBook(dto, nextId);
      nextId := nextId + 1;
      books := books + [book];
      r := Success(book);
    }

    method UpdateBook(id: int, dto: UpdateBookDto) returns (r: Option<Book>)
      requires Valid()
      modifies this
      ensures Change(State(), r) == Update(old(State()), id, dto)
      ensures Valid()
    {
      var found := FirstWhere(books, HasId(id));
      if found.None? {
        return None;
      }
      var i := found.value;
      UpdateTouchesOnlyTarget(State(), id, dto, i);
      var book := ApplyUpdate(books[i], dto);
      books := books[i := book];
      r := Some(book);
    }

    method UpdateBookStock(id: int, change: int) returns (r: Result<Option<Book>>)
      requires Valid()
      modifies this
      ensures Change(State(), r) == Restock(old(State()), id, change)
      ensures Valid()
    {
      var found := FirstWhere(books, HasId(id));
      if found.None? {
        return Success(None);
      }
      var i := found.value;
      var newStock := Wrap32(books[i].stockQuantity + change);
      if newStock < 0 {
        return Failure(InsufficientStock);
      }
      ReplaceKeepsConsistent(State(), i, books[i].(stockQuantity := newStock));
      var book := books[i].(stockQuantity := newStock);
      books := books[i := book];
      r := Success(Some(book));
    }

    method DeleteBook(id: int) returns (r: bool)
      requires Valid()
      modifies this
      ensures Change(State(), r) == Delete(old(State()), id)
      ensures Valid()
    {
      DeleteDropsId(State(), id);
      var found := FirstWhere(books, HasId(id));
      if found.None? {
        return false;
      }
      var i := found.value;
      books := books[..i] + books[i + 1..];
      r := true;
    }

    method DeleteBooks(ids: seq<int>) returns (count: int)
      requires Valid()
      modifies this
      ensures Change(State(), count) == DeleteAll(old(State()), ids)
      ensures Valid()
    {
      count := 0;
      for i := 0 to |ids|
        invariant Change(State(), count) == DeleteAll(old(State()), ids[..i])
        invariant Valid()
      {
        assert ids[..i + 1][..i] == ids[..i];
        var deleted := DeleteBook(ids[i]);
        if deleted {
          count := count + 1;
        }
      }
      assert ids[..|ids|] == ids;
    }
  }
}
