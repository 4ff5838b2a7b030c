/**
 * The catalog, ledger and preference store: the tables as sequences of rows
 * and each query as its WHERE condition and ORDER BY key.
 */
module Database {
  import opened Wrappers
  import opened Models
  import opened Relational
  import Ltree

  /** What a query can fail with. */
  datatype DbError =
    | NoRows                    // sql.ErrNoRows from QueryRow
    | ConnectionFailed          // the server cannot be reached
    | InvalidText(kind: string) // text the server cannot read as `kind` (ltree, lquery)

  /** err.Error(). Only sql.ErrNoRows has a fixed text; the server's own texts are stand-ins. */
  function ErrorText(e: DbError): string
  {
    match e
    case NoRows => "sql: no rows in result set"
    case ConnectionFailed => "connection failed"
    case InvalidText(kind) => "invalid input syntax for type " + kind
  }

  /** WHERE login = $1 AND created_at >= $2 AND created_at <= $3. */
  predicate InTimeRange(r: Record, login: string, start: Time, end: Time)
  {
    r.login == login && start <= r.createdAt <= end
  }

  /** ORDER BY created_at DESC. */
  predicate NewerOrSame(a: Record, b: Record)
  {
    a.createdAt >= b.createdAt
  }

  /** ORDER BY path. */
  predicate PathOrder(a: UserCommonItem, b: UserCommonItem)
  {
    Ltree.PathLe(a.path, b.path)
  }

  lemma NewestFirstIsTotalPreorder()
    ensures TotalPreorder(NewerOrSame)
  {
  }

  /** Items ordered by their paths inherit the total preorder of ltree order. */
  lemma PathOrderIsTotalPreorder()
    ensures TotalPreorder(PathOrder)
  {
    Ltree.PathOrderIsTotalPreorder();
  }

  /** The pattern the level listing sends for a non-empty parent. */
  function ChildPattern(parentPath: string): string
  {
    parentPath + ".*{1}"
  }

  /** SELECT ... FROM product_details WHERE uuid = $1, scanned with QueryRow. */
  function FindProduct(products: seq<ProductDetails>, id: Uuid): (r: Result<ProductDetails, DbError>)
    ensures r.Success? ==> r.value in products && r.value.uuid == id
    ensures r.Failure? ==> r.error == NoRows && forall i :: 0 <= i < |products| ==> products[i].uuid != id
  {
    match First(products, ProductWithUuid(id))
    case Some(p) => Success(p)
    case None => Failure(NoRows)
  }

  function ProductWithUuid(id: Uuid): ProductDetails -> bool
  {
    (p: ProductDetails) => p.uuid == id
  }

  /** A product appended under a uuid no other product has is what the lookup finds. */
  lemma FindAppendedProduct(products: seq<ProductDetails>, p: ProductDetails)
    requires forall i :: 0 <= i < |products| ==> products[i].uuid != p.uuid
    ensures FindProduct(products + [p], p.uuid) == Success(p)
  {
    FirstOfAppended(products, p, ProductWithUuid(p.uuid));
  }

  /** SELECT ... FROM records WHERE uuid = $1, scanned with QueryRow. */
  function FindRecord(records: seq<Record>, id: Uuid): (r: Result<Record, DbError>)
    ensures r.Success? ==> r.value in records && r.value.uuid == id
    ensures r.Failure? ==> r.error == NoRows && forall i :: 0 <= i < |records| ==> records[i].uuid != id
  {
    match First(records, RecordWithUuid(id))
    case Some(x) => Success(x)
    case None => Failure(NoRows)
  }

  function RecordWithUuid(id: Uuid): Record -> bool
  {
    (x: Record) => x.uuid == id
  }

  /** A record appended under a uuid no other record has is what the lookup finds. */
  lemma FindAppendedRecord(records: seq<Record>, x: Record)
    requires forall i :: 0 <= i < |records| ==> records[i].uuid != x.uuid
    ensures FindRecord(records + [x], x.uuid) == Success(x)
  {
    FirstOfAppended(records, x, RecordWithUuid(x.uuid));
  }

  /** ON CONFLICT (login) DO UPDATE SET noon: a new row, or the old row with only `noon` changed. */
  function SetNoon(table: map<string, UserPreferences>, login: string, noon: Time): (t: map<string, UserPreferences>)
    ensures t.Keys == table.Keys + {login}
    ensures t[login] == UserPreferences(login, Some(noon), if login in table then table[login].lang else None)
    ensures forall l :: l in table && l != login ==> t[l] == table[l]
  {
    var lang := if login in table then table[login].lang else None;
    table[login := UserPreferences(login, Some(noon), lang)]
  }

  /** ON CONFLICT (login) DO UPDATE SET lang: a new row, or the old row with only `lang` changed. */
  function SetLang(table: map<string, UserPreferences>, login: string, lang: string): (t: map<string, UserPreferences>)
    ensures t.Keys == table.Keys + {login}
    ensures t[login] == UserPreferences(login, if login in table then table[login].noon else None, Some(lang))
    ensures forall l :: l in table && l != login ==> t[l] == table[l]
  {
    var noon := if login in table then table[login].noon else None;
    table[login := UserPreferences(login, noon, Some(lang))]
  }

  /** The `for rows.Next() { rows.Scan(...); append }` loop: every row of the cursor, in order. */
  method ScanAll<T>(rows: seq<T>) returns (out: seq<T>)
    ensures out == rows
  {
    out := [];
    var i := 0;
    while i < |rows|
      invariant 0 <= i <= |rows|
      invariant out == rows[..i]
    {
      out := out + [rows[i]];
      i := i + 1;
    }
  }

  /** `login = $1 AND path ~ $2`, with the matcher the pattern parsed to. */
  function MatchingRow(login: string, m: string -> bool): UserCommonItem -> bool
  {
    (x: UserCommonItem) => x.login == login && m(x.path)
  }

  /** `login = $1 AND path ~ 'P.*{1}' AND nlevel(path) = $3`, for a plain path P. */
  function ChildRow(login: string, parentPath: string): UserCommonItem -> bool
  {
    (x: UserCommonItem) =>
      x.login == login && Ltree.MatchesChildPattern(x.path, parentPath) && Ltree.NLevel(x.path) == Ltree.ChildLevel(parentPath)
  }

  /**
   * The server's lquery matcher reads `P.*{1}`, for a plain non-empty path P,
   * as the concrete child pattern: P's labels and exactly one more.
   */
  ghost predicate MatcherAgrees(m: string -> Option<string -> bool>)
  {
    forall p :: p != "" && Ltree.IsPath(p) ==>
      && m(ChildPattern(p)).Some?
      && forall path :: Ltree.IsPath(path) ==> (m(ChildPattern(p)).value(path) <==> Ltree.MatchesChildPattern(path, p))
  }

  class Store {
    /** Whether the server can be reached; when it cannot, every operation fails and changes nothing. */
    var online: bool
    /**
     * The server's lquery matcher: None for a pattern that does not parse.
     * ItemsMatching uses it for every pattern, the level listing only when
     * the parent is not a plain path; on `P.*{1}` for a plain path P it agrees
     * with the concrete child pattern (MatcherAgrees).
     */
    const lquery: string -> Option<string -> bool>

    var products: seq<ProductDetails>
    var records: seq<Record>
    var preferences: map<string, UserPreferences>
    var items: seq<UserCommonItem>
    /** Where gen_random_uuid() draws from: above every identifier handed out. */
    var nextUuid: nat

    ghost predicate Valid()
      reads this
    {
      && (forall i :: 0 <= i < |products| ==> products[i].uuid < nextUuid)
      && (forall i, j :: 0 <= i < j < |products| ==> products[i].uuid != products[j].uuid)
      && (forall i :: 0 <= i < |records| ==> records[i].uuid < nextUuid)
      && (forall i, j :: 0 <= i < j < |records| ==> records[i].uuid != records[j].uuid)
      && (forall i :: 0 <= i < |items| ==> items[i].uuid < nextUuid)
      && (forall i, j :: 0 <= i < j < |items| ==> items[i].uuid != items[j].uuid)
      && (forall i :: 0 <= i < |items| ==> Ltree.IsPath(items[i].path))
      && (forall l :: l in preferences ==> preferences[l].login == l)
    }

    constructor (online: bool, lquery: string -> Option<string -> bool>)
      requires MatcherAgrees(lquery)
      ensures Valid()
      ensures this.online == online && this.lquery == lquery
      ensures products == [] && records == [] && preferences == map[] && items == []
    {
      this.online := online;
      this.lquery := lquery;
      products, records, preferences, items := [], [], map[], [];
      nextUuid := 0;
    }

    // ---- queries, as functions of the tables ----

    /** GetRecordsByLoginAndTimeRange's SELECT: the login's records in [start, end], newest first. */
    function RecordsInRange(login: string, start: Time, end: Time): (rs: seq<Record>)
      reads this
      ensures forall x :: multiset(rs)[x] == if InTimeRange(x, login, start, end) then multiset(records)[x] else 0
      ensures forall x :: x in rs <==> x in records && InTimeRange(x, login, start, end)
      ensures forall i, j :: 0 <= i < j < |rs| ==> rs[i].createdAt >= rs[j].createdAt
    {
      NewestFirstIsTotalPreorder();
      Select(records, (x: Record) => InTimeRange(x, login, start, end), NewerOrSame)
    }

    /** GetUserCommonItemsByLogin's SELECT: all of the login's items, by path. */
    function ItemsByLogin(login: string): (rs: seq<UserCommonItem>)
      reads this
      ensures forall x :: multiset(rs)[x] == if x.login == login then multiset(items)[x] else 0
      ensures forall x :: x in rs <==> x in items && x.login == login
      ensures forall i, j :: 0 <= i < j < |rs| ==> Ltree.PathLe(rs[i].path, rs[j].path)
    {
      PathOrderIsTotalPreorder();
      Select(items, (x: UserCommonItem) => x.login == login, PathOrder)
    }

    /** GetUserCommonItemsByLoginAndPath's SELECT: the login's items whose path matches the lquery pattern. */
    function ItemsMatching(login: string, pattern: string): (r: Result<seq<UserCommonItem>, DbError>)
      reads this
      ensures lquery(pattern).None? <==> r == Failure(InvalidText("lquery"))
      ensures r.Success? ==> forall x :: multiset(r.value)[x] ==
                                         if x.login == login && lquery(pattern).value(x.path) then multiset(items)[x] else 0
      ensures r.Success? ==> forall x :: x in r.value <==> x in items && x.login == login && lquery(pattern).value(x.path)
      ensures r.Success? ==> forall i, j :: 0 <= i < j < |r.value| ==> Ltree.PathLe(r.value[i].path, r.value[j].path)
    {
      PathOrderIsTotalPreorder();
      match lquery(pattern)
      case None => Failure(InvalidText("lquery"))
      case Some(m) => Success(Select(items, MatchingRow(login, m), PathOrder))
    }

    /** The pattern query on `P.*{1}`, for a plain path P, returns exactly the child listing. */
    lemma ChildPatternMatchingAgrees(login: string, parentPath: string)
      requires Valid() && MatcherAgrees(lquery) && parentPath != "" && Ltree.IsPath(parentPath)
      ensures ItemsMatching(login, ChildPattern(parentPath)).Success?
      ensures ItemsMatching(login, ChildPattern(parentPath)).value == ChildItems(login, parentPath)
    {
      var m := lquery(ChildPattern(parentPath)).value;
      PathOrderIsTotalPreorder();
      forall x | x in items ensures MatchingRow(login, m)(x) <==> ChildRow(login, parentPath)(x) {
        if Ltree.MatchesChildPattern(x.path, parentPath) {
          Ltree.ChildPatternFixesLevel(x.path, parentPath);
        }
      }
      SelectSameRows(items, MatchingRow(login, m), ChildRow(login, parentPath), PathOrder);
    }

    /** The WHERE condition of the level listing, for a parent that is not the root. */
    predicate AtLevelRow(x: UserCommonItem, login: string, parentPath: string, m: string -> bool)
    {
      x.login == login && m(x.path) && Ltree.NLevel(x.path) == Ltree.ChildLevel(parentPath)
    }

    /** Sorted by path, and each row one of the login's items at the given level. */
    ghost predicate LevelListing(rs: seq<UserCommonItem>, login: string, level: int)
      reads this
    {
      && (forall i :: 0 <= i < |rs| ==> rs[i] in items && rs[i].login == login && Ltree.NLevel(rs[i].path) == level)
      && (forall i, j :: 0 <= i < j < |rs| ==> Ltree.PathLe(rs[i].path, rs[j].path))
    }

    /** `WHERE login = $1 AND nlevel(path) = 1 ORDER BY path`: the login's top-level items. */
    function TopLevelItems(login: string): (rs: seq<UserCommonItem>)
      reads this
      requires Valid()
      ensures forall x :: multiset(rs)[x] == if x.login == login && Ltree.IsLabel(x.path) then multiset(items)[x] else 0
      ensures LevelListing(rs, login, 1)
    {
      PathOrderIsTotalPreorder();
      var keep := (x: UserCommonItem) => x.login == login && Ltree.NLevel(x.path) == 1;
      var spec := (x: UserCommonItem) => x.login == login && Ltree.IsLabel(x.path);
      forall x | x in items ensures keep(x) <==> spec(x) {
        Ltree.TopLevelIsLabel(x.path);
      }
      SelectAgrees(items, keep, spec, PathOrder);
      Select(items, keep, PathOrder)
    }

    /** `WHERE login = $1 AND path ~ 'P.*{1}' AND nlevel(path) = $3` for a plain path P: its children. */
    function ChildItems(login: string, parentPath: string): (rs: seq<UserCommonItem>)
      reads this
      requires Valid() && parentPath != "" && Ltree.IsPath(parentPath)
      ensures forall x :: multiset(rs)[x] ==
                          if x.login == login && Ltree.IsChildPath(x.path, parentPath) then multiset(items)[x] else 0
      ensures LevelListing(rs, login, Ltree.ChildLevel(parentPath))
    {
      PathOrderIsTotalPreorder();
      var keep := ChildRow(login, parentPath);
      var spec := (x: UserCommonItem) => x.login == login && Ltree.IsChildPath(x.path, parentPath);
      forall x | x in items ensures keep(x) <==> spec(x) {
        Ltree.ChildRowIsChildPath(x.path, parentPath);
      }
      SelectAgrees(items, keep, spec, PathOrder);
      Select(items, keep, PathOrder)
    }

    /** The same query when P is not a plain path: the server's matcher decides. */
    function MatchedLevelItems(login: string, parentPath: string, m: string -> bool): (rs: seq<UserCommonItem>)
      reads this
      ensures forall x :: multiset(rs)[x] == if AtLevelRow(x, login, parentPath, m) then multiset(items)[x] else 0
      ensures forall x :: x in rs <==> x in items && AtLevelRow(x, login, parentPath, m)
      ensures LevelListing(rs, login, Ltree.ChildLevel(parentPath))
    {
      PathOrderIsTotalPreorder();
      var keep := (x: UserCommonItem) => AtLevelRow(x, login, parentPath, m);
      var rs := Select(items, keep, PathOrder);
      assert forall i :: 0 <= i < |rs| ==> rs[i] in items && keep(rs[i]) by {
        forall i | 0 <= i < |rs| ensures rs[i] in items && keep(rs[i]) {
          assert rs[i] in rs;
        }
      }
      rs
    }

    /**
     * GetUserCommonItemsAtLevel's two SELECTs. At the root: the login's
     * depth-1 items. Below a plain path P: exactly P's children. Otherwise
     * the server's lquery matcher decides, and a pattern it cannot parse
     * fails the query. Every listing is sorted by path.
     */
    function ItemsAtLevel(login: string, parentPath: string): (r: Result<seq<UserCommonItem>, DbError>)
      reads this
      requires Valid()
      ensures parentPath == "" ==> r == Success(TopLevelItems(login))
      ensures parentPath != "" && Ltree.IsPath(parentPath) ==> r == Success(ChildItems(login, parentPath))
      ensures parentPath != "" && !Ltree.IsPath(parentPath) && lquery(ChildPattern(parentPath)).Some? ==>
        r == Success(MatchedLevelItems(login, parentPath, lquery(ChildPattern(parentPath)).value))
      ensures r.Failure? <==> (parentPath != "" && !Ltree.IsPath(parentPath) && lquery(ChildPattern(parentPath)).None?)
      ensures r.Success? ==>
        LevelListing(r.value, login, if parentPath == "" then 1 else Ltree.ChildLevel(parentPath))
    {
      if parentPath == "" then Success(TopLevelItems(login))
      else if Ltree.IsPath(parentPath) then Success(ChildItems(login, parentPath))
      else
        match lquery(ChildPattern(parentPath))
        case None => Failure(InvalidText("lquery"))
        case Some(m) => Success(MatchedLevelItems(login, parentPath, m))
    }

    // ---- operations ----

    method InsertProduct(name: string, ccal: int, fats: int, proteins: int, carbs: int)
      returns (r: Result<ProductDetails, DbError>)
      requires Valid()
      modifies this
      ensures Valid()
      ensures online == old(online) && nextUuid >= old(nextUuid)
      ensures records == old(records) && items == old(items) && preferences == old(preferences)
      ensures !online ==> r == Failure(ConnectionFailed) && products == old(products)
      ensures online ==> (r.Success?
        && r.value.name == name && r.value.ccal == ccal && r.value.fats == fats
        && r.value.proteins == proteins && r.value.carbs == carbs
        && (forall i :: 0 <= i < |old(products)| ==> old(products)[i].uuid != r.value.uuid)
        && products == old(products) + [r.value])
      ensures r.Success? ==> FindProduct(products, r.value.uuid) == Success(r.value)
    {
      if !online {
        return Failure(ConnectionFailed);
      }
      var p := ProductDetails(nextUuid, name, ccal, fats, proteins, carbs);
      FindAppendedProduct(products, p);
      products := products + [p];
      nextUuid := nextUuid + 1;
      r := Success(p);
    }

    method GetProductByUUID(id: Uuid) returns (r: Result<ProductDetails, DbError>)
      ensures r == if online then FindProduct(products, id) else Failure(ConnectionFailed)
    {
      if !online {
        return Failure(ConnectionFailed);
      }
      r := FindProduct(products, id);
    }

    /** The server stamps `created_at` with its clock, here `now`. */
    method InsertRecord(productUuid: Uuid, amount: int, login: string, now: Time)
      returns (r: Result<Record, DbError>)
      requires Valid()
      modifies this
      ensures Valid()
      ensures online == old(online) && nextUuid >= old(nextUuid)
      ensures products == old(products) && items == old(items) && preferences == old(preferences)
      ensures !online ==> r == Failure(ConnectionFailed) && records == old(records)
      ensures online ==> (r.Success?
        && r.value.productUuid == productUuid && r.value.amount == amount
        && r.value.login == login && r.value.createdAt == now
        && (forall i :: 0 <= i < |old(records)| ==> old(records)[i].uuid != r.value.uuid)
        && records == old(records) + [r.value])
      ensures r.Success? ==> FindRecord(records, r.value.uuid) == Success(r.value)
    {
      if !online {
        return Failure(ConnectionFailed);
      }
      var x := Record(nextUuid, productUuid, amount, login, now);
      FindAppendedRecord(records, x);
      records := records + [x];
      nextUuid := nextUuid + 1;
      r := Success(x);
    }

    method GetRecordByUUID(id: Uuid) returns (r: Result<Record, DbError>)
      ensures r == if online then FindRecord(records, id) else Failure(ConnectionFailed)
    {
      if !online {
        return Failure(ConnectionFailed);
      }
      r := FindRecord(records, id);
    }

    method GetRecordsByLoginAndTimeRange(login: string, start: Time, end: Time)
      returns (r: Result<seq<Record>, DbError>)
      ensures r == if online then Success(RecordsInRange(login, start, end)) else Failure(ConnectionFailed)
    {
      if !online {
        return Failure(ConnectionFailed);
      }
      var rows := ScanAll(RecordsInRange(login, start, end));
      r := Success(rows);
    }

    method GetUserPreferences(login: string) returns (r: Result<UserPreferences, DbError>)
      requires Valid()
      ensures !online ==> r == Failure(ConnectionFailed)
      ensures online && login in preferences ==> r == Success(preferences[login]) && r.value.login == login
      ensures online && login !in preferences ==> r == Failure(NoRows)
    {
      if !online {
        return Failure(ConnectionFailed);
      }
      if login in preferences {
        r := Success(preferences[login]);
      } else {
        r := Failure(NoRows);
      }
    }

    method UpsertUserNoon(login: string, noon: Time) returns (err: Option<DbError>)
      requires Valid()
      modifies this
      ensures Valid()
      ensures online == old(online) && nextUuid == old(nextUuid)
      ensures products == old(products) && records == old(records) && items == old(items)
      ensures !online ==> err == Some(ConnectionFailed) && preferences == old(preferences)
      ensures online ==> err == None && preferences == SetNoon(old(preferences), login, noon)
    {
      if !online {
        return Some(ConnectionFailed);
      }
      preferences := SetNoon(preferences, login, noon);
      err := None;
    }

    method UpsertUserLang(login: string, lang: string) returns (err: Option<DbError>)
      requires Valid()
      modifies this
      ensures Valid()
      ensures online == old(online) && nextUuid == old(nextUuid)
      ensures products == old(products) && records == old(records) && items == old(items)
      ensures !online ==> err == Some(ConnectionFailed) && preferences == old(preferences)
      ensures online ==> err == None && preferences == SetLang(old(preferences), login, lang)
    {
      if !online {
        return Some(ConnectionFailed);
      }
      preferences := SetLang(preferences, login, lang);
      err := None;
    }

    /**
     * The `$2::ltree` cast rejects a path that is not labels joined by dots.
     * The parent of the new path need not exist.
     */
    method InsertUserCommonItem(login: string, path: string, name: string, productUuid: Option<Uuid>, now: Time)
      returns (r: Result<UserCommonItem, DbError>)
      requires Valid()
      modifies this
      ensures Valid()
      ensures online == old(online) && nextUuid >= old(nextUuid)
      ensures products == old(products) && records == old(records) && preferences == old(preferences)
      ensures !online ==> r == Failure(ConnectionFailed) && items == old(items)
      ensures online && !Ltree.IsPath(path) ==> r == Failure(InvalidText("ltree")) && items == old(items)
      ensures online && Ltree.IsPath(path) ==> (r.Success?
        && r.value.login == login && r.value.path == path && r.value.name == name
        && r.value.productUuid == productUuid && r.value.createdAt == now
        && (forall i :: 0 <= i < |old(items)| ==> old(items)[i].uuid != r.value.uuid)
        && items == old(items) + [r.value])
      ensures r.Success? ==> r.value in ItemsByLogin(login)
    {
      if !online {
        return Failure(ConnectionFailed);
      }
      if !Ltree.IsPath(path) {
        return Failure(InvalidText("ltree"));
      }
      var x := UserCommonItem(nextUuid, login, path, name, productUuid, now);
      items := items + [x];
      nextUuid := nextUuid + 1;
      r := Success(x);
    }

    method GetUserCommonItemsByLogin(login: string) returns (r: Result<seq<UserCommonItem>, DbError>)
      ensures r == if online then Success(ItemsByLogin(login)) else Failure(ConnectionFailed)
    {
      if !online {
        return Failure(ConnectionFailed);
      }
      var rows := ScanAll(ItemsByLogin(login));
      r := Success(rows);
    }

    method GetUserCommonItemsByLoginAndPath(login: string, pattern: string)
      returns (r: Result<seq<UserCommonItem>, DbError>)
      ensures r == if online then ItemsMatching(login, pattern) else Failure(ConnectionFailed)
    {
      if !online {
        return Failure(ConnectionFailed);
      }
      var q := ItemsMatching(login, pattern);
      if q.Failure? {
        return q;
      }
      var rows := ScanAll(q.value);
      r := Success(rows);
    }

    method GetUserCommonItemsAtLevel(login: string, parentPath: string)
      returns (r: Result<seq<UserCommonItem>, DbError>)
      requires Valid()
      ensures r == if online then ItemsAtLevel(login, parentPath) else Failure(ConnectionFailed)
    {
      if !online {
        return Failure(ConnectionFailed);
      }
      var q := ItemsAtLevel(login, parentPath);
      if q.Failure? {
        return q;
      }
      var rows := ScanAll(q.value);
      r := Success(rows);
    }
  }
}
