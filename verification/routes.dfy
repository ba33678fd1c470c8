/**
 * The route table the router factory builds: fixed stages first, one mount
 * per top-level document key in document order, then the fallback and the
 * error handler. A key whose value is neither a plain object nor an array
 * aborts construction with a configuration error.
 */
module Routes {
  import opened Wrappers
  import opened JsValues

  /** One top-level entry of the document. */
  datatype Entry = Entry(key: string, value: JsValue)

  /**
   * The (key, value) pairs the store's walk over the document visits, in the
   * order it visits them: for an ordinary object, its own top-level entries.
   */
  type Document = seq<Entry>

  predicate DistinctKeys(doc: Document) {
    forall i, j :: 0 <= i < j < |doc| ==> doc[i].key != doc[j].key
  }

  /** A stage of the router, in the order it is registered. */
  datatype Stage =
    | MethodOverride        // `router.use(methodOverride())`
    | BodyParser            // `router.use(bodyParser)`
    | DbDump                // `router.get('/db', ...)`
    | Nested                // `router.use(nested(opts))`
    | Singular(key: string) // `router.use('/key', singular(db, key, opts))`
    | Plural(key: string)   // `router.use('/key', plural(db, key, opts))`
    | Fallback              // the 404 fallback
    | ErrorHandler          // the four-argument error handler

  /** The stages registered before any document key. */
  const Head: seq<Stage> := [MethodOverride, BodyParser, DbDump, Nested]

  /** The stages registered after every document key. */
  const Tail: seq<Stage> := [Fallback, ErrorHandler]

  /** The path a stage is mounted at; None for stages that see every request. */
  function MountPath(s: Stage): Option<string> {
    match s
    case DbDump => Some("/db")
    case Singular(key) => Some("/" + key)
    case Plural(key) => Some("/" + key)
    case _ => None
  }

  /** The document key a stage serves, if it is a per-key stage. */
  function MountedKey(s: Stage): Option<string> {
    match s
    case Singular(key) => Some(key)
    case Plural(key) => Some(key)
    case _ => None
  }

  /** The shape of a top-level value, tested in the source's order. */
  datatype Shape = Singleton | Collection | Unsupported

  function Classify(v: JsValue): (s: Shape)
    ensures s == Singleton <==> IsPlainObject(v)
    ensures s == Collection <==> IsArray(v)
    ensures s == Unsupported <==> !IsPlainObject(v) && !IsArray(v)
  {
    if IsPlainObject(v) then Singleton
    else if IsArray(v) then Collection
    else Unsupported
  }

  /** The error thrown for an unsupported top-level value: its key and its `typeof`. */
  datatype ConfigError = UnsupportedType(key: string, typeName: string)

  /** `part` occurs in `s` at index `i`. */
  predicate OccursAt(s: string, part: string, i: int) {
    0 <= i <= |s| - |part| && s[i..i + |part|] == part
  }

  ghost predicate Contains(s: string, part: string) {
    exists i :: OccursAt(s, part, i)
  }

  /** The error's message: `Type of "<key>" (<typeof>)  is not supported. Use objects or arrays of objects.` */
  function Message(e: ConfigError): (m: string)
    ensures Contains(m, e.key) && Contains(m, e.typeName)
  {
    var head := "Type of \"" + e.key + "\" (";
    var m := head + e.typeName + ")  is not supported. " + "Use objects or arrays of objects.";
    assert OccursAt(m, e.key, 9);
    assert OccursAt(m, e.typeName, |head|);
    m
  }

  /** The stage one entry mounts, or the error it raises. */
  function Mount(e: Entry): (r: Result<Stage, ConfigError>)
    ensures r == Success(Singular(e.key)) <==> IsPlainObject(e.value)
    ensures r == Success(Plural(e.key)) <==> IsArray(e.value)
    ensures r.Failure? <==> Classify(e.value) == Unsupported
    ensures r.Failure? ==> r.error == UnsupportedType(e.key, TypeOf(e.value))
    ensures r.Success? ==> MountedKey(r.value) == Some(e.key) && MountPath(r.value) == Some("/" + e.key)
  {
    match Classify(e.value)
    case Singleton => Success(Singular(e.key))
    case Collection => Success(Plural(e.key))
    case Unsupported => Failure(UnsupportedType(e.key, TypeOf(e.value)))
  }

  /** Every entry mounts a stage. */
  predicate AllSupported(doc: Document) {
    forall i :: 0 <= i < |doc| ==> Mount(doc[i]).Success?
  }

  /** `i` is the first entry whose value is unsupported. */
  predicate FirstUnsupported(doc: Document, i: int) {
    0 <= i < |doc| && Mount(doc[i]).Failure? && AllSupported(doc[..i])
  }

  /** The per-key stages, in document order, or the error of the first unsupported entry. */
  function Mounts(doc: Document): (r: Result<seq<Stage>, ConfigError>)
    ensures r.Success? <==> AllSupported(doc)
    ensures r.Success? ==> |r.value| == |doc|
    ensures r.Success? ==> forall i :: 0 <= i < |doc| ==> Mount(doc[i]) == Success(r.value[i])
    ensures r.Failure? ==> exists i :: FirstUnsupported(doc, i) && r.error == Mount(doc[i]).error
    decreases |doc|
  {
    if doc == [] then Success([])
    else
      match Mount(doc[0])
      case Failure(e) =>
        assert FirstUnsupported(doc, 0);
        Failure(e)
      case Success(s) =>
        match Mounts(doc[1..])
        case Failure(e) =>
          assert forall k :: 0 <= k < |doc| - 1 ==> doc[1..][k] == doc[k + 1];
          var i :| FirstUnsupported(doc[1..], i) && e == Mount(doc[1..][i]).error;
          assert doc[..i + 1][1..] == doc[1..][..i];
          assert FirstUnsupported(doc, i + 1);
          Failure(e)
        case Success(rest) => Success([s] + rest)
  }

  /** The whole route table the factory builds from a document, or its configuration error. */
  function RouteTable(doc: Document): (r: Result<seq<Stage>, ConfigError>)
    ensures r.Success? <==> AllSupported(doc)
    ensures r.Success? ==> |r.value| == |Head| + |doc| + |Tail|
    ensures r.Success? ==> r.value[..|Head|] == Head && r.value[|Head| + |doc|..] == Tail
    ensures r.Failure? ==> exists i :: FirstUnsupported(doc, i) && r.error == UnsupportedType(doc[i].key, TypeOf(doc[i].value))
  {
    match Mounts(doc)
    case Success(ms) => Success(Head + ms + Tail)
    case Failure(e) => Failure(e)
  }

  lemma FirstUnsupportedUnique(doc: Document, i: int, j: int)
    requires FirstUnsupported(doc, i) && FirstUnsupported(doc, j)
    ensures i == j
  {
  }

  /** The error, if any, is the one of the FIRST unsupported entry, naming its key and its `typeof`. */
  lemma {:induction false} RouteTableError(doc: Document, i: int)
    requires FirstUnsupported(doc, i)
    ensures RouteTable(doc) == Failure(UnsupportedType(doc[i].key, TypeOf(doc[i].value)))
    ensures Contains(Message(RouteTable(doc).error), doc[i].key)
    ensures Contains(Message(RouteTable(doc).error), TypeOf(doc[i].value))
  {
    var e := Mounts(doc).error;
    var j :| FirstUnsupported(doc, j) && e == Mount(doc[j]).error;
    FirstUnsupportedUnique(doc, i, j);
  }

  /**
   * On success the table is: method override, body parser, `GET /db`, the
   * nested resolver, then one stage per key in document order (singular for a
   * plain object, plural for an array), and the fallback and error handler last.
   */
  lemma RouteTableOrder(doc: Document)
    requires AllSupported(doc)
    ensures RouteTable(doc).Success?
    ensures var t := RouteTable(doc).value;
      && |t| == |doc| + 6
      && t[..4] == [MethodOverride, BodyParser, DbDump, Nested]
      && t[|t| - 2..] == [Fallback, ErrorHandler]
      && (forall i :: 0 <= i < |doc| ==> t[4 + i] == (if IsPlainObject(doc[i].value) then Singular(doc[i].key) else Plural(doc[i].key)))
  {
    var t := RouteTable(doc).value;
    var ms := Mounts(doc).value;
    assert t == Head + ms + Tail;
    forall i | 0 <= i < |doc|
      ensures t[4 + i] == (if IsPlainObject(doc[i].value) then Singular(doc[i].key) else Plural(doc[i].key))
    {
      assert t[4 + i] == ms[i];
    }
  }

  /** The keys the per-key stages serve, in table order. */
  function MountedKeys(t: seq<Stage>): seq<string> {
    if t == [] then []
    else
      match MountedKey(t[0])
      case Some(k) => [k] + MountedKeys(t[1..])
      case None => MountedKeys(t[1..])
  }

  function Keys(doc: Document): seq<string> {
    if doc == [] then [] else [doc[0].key] + Keys(doc[1..])
  }

  lemma {:induction false} MountedKeysAppend(a: seq<Stage>, b: seq<Stage>)
    ensures MountedKeys(a + b) == MountedKeys(a) + MountedKeys(b)
    decreases |a|
  {
    if a != [] {
      assert (a + b)[0] == a[0];
      assert (a + b)[1..] == a[1..] + b;
      MountedKeysAppend(a[1..], b);
      match MountedKey(a[0])
      case Some(k) =>
        assert MountedKeys(a + b) == [k] + MountedKeys(a[1..] + b);
        assert MountedKeys(a) == [k] + MountedKeys(a[1..]);
      case None =>
        assert MountedKeys(a + b) == MountedKeys(a[1..] + b);
    } else {
      assert a + b == b;
    }
  }

  lemma {:induction false} MountsKeys(doc: Document)
    requires AllSupported(doc)
    ensures MountedKeys(Mounts(doc).value) == Keys(doc)
    decreases |doc|
  {
    if doc != [] {
      var ms := Mounts(doc).value;
      assert AllSupported(doc[1..]) by {
        forall i | 0 <= i < |doc| - 1 ensures Mount(doc[1..][i]).Success? {
          assert doc[1..][i] == doc[i + 1];
        }
      }
      MountsKeys(doc[1..]);
      assert ms == [ms[0]] + Mounts(doc[1..]).value;
      assert ms[1..] == Mounts(doc[1..]).value;
    }
  }

  /**
   * The table mounts exactly the document's keys, once each and in document
   * order: the keys its per-key stages serve are the document's keys.
   */
  lemma RouteTableMountsEachKey(doc: Document)
    requires AllSupported(doc)
    ensures MountedKeys(RouteTable(doc).value) == Keys(doc)
  {
    var ms := Mounts(doc).value;
    MountedKeysAppend(Head, ms);
    MountedKeysAppend(Head + ms, Tail);
    MountsKeys(doc);
    assert MountedKeys(Head) == [] by {
      assert Head[1..] == [BodyParser, DbDump, Nested];
      assert Head[1..][1..] == [DbDump, Nested];
      assert Head[1..][1..][1..] == [Nested];
    }
    assert MountedKeys(Tail) == [] by {
      assert Tail[1..] == [ErrorHandler];
    }
  }

  function CountOf(ks: seq<string>, k: string): nat {
    if ks == [] then 0 else (if ks[0] == k then 1 else 0) + CountOf(ks[1..], k)
  }

  /** With distinct document keys, each key is mounted exactly once and no other key is. */
  lemma {:induction false} KeysCountedOnce(doc: Document, k: string)
    requires DistinctKeys(doc)
    ensures CountOf(Keys(doc), k) == (if exists i :: 0 <= i < |doc| && doc[i].key == k then 1 else 0)
    decreases |doc|
  {
    if doc != [] {
      assert DistinctKeys(doc[1..]) by {
        forall i, j | 0 <= i < j < |doc| - 1 ensures doc[1..][i].key != doc[1..][j].key {
          assert doc[1..][i] == doc[i + 1] && doc[1..][j] == doc[j + 1];
        }
      }
      KeysCountedOnce(doc[1..], k);
      assert Keys(doc)[1..] == Keys(doc[1..]);
      if exists i :: 0 <= i < |doc| && doc[i].key == k {
        var i :| 0 <= i < |doc| && doc[i].key == k;
        if i > 0 {
          assert doc[1..][i - 1].key == k;
        }
      } else {
        forall i | 0 <= i < |doc| - 1 ensures doc[1..][i].key != k {
          assert doc[1..][i] == doc[i + 1];
        }
      }
      if doc[0].key == k {
        forall i | 0 <= i < |doc| - 1 ensures doc[1..][i].key != k {
          assert doc[1..][i] == doc[i + 1];
        }
      }
    }
  }

  lemma OneMountPerKey(doc: Document, k: string)
    requires AllSupported(doc) && DistinctKeys(doc)
    ensures CountOf(MountedKeys(RouteTable(doc).value), k) ==
      (if exists i :: 0 <= i < |doc| && doc[i].key == k then 1 else 0)
  {
    RouteTableMountsEachKey(doc);
    KeysCountedOnce(doc, k);
  }

  /** `GET /db` is registered ahead of every per-key stage, so a document key named `db` cannot shadow it. */
  lemma DbDumpFirst(doc: Document, i: int)
    requires AllSupported(doc)
    requires 0 <= i < |RouteTable(doc).value| && MountedKey(RouteTable(doc).value[i]).Some?
    ensures RouteTable(doc).value[2] == DbDump && 2 < i
  {
  }

  /** The document as the single object `GET /db` sends: each key with its value. */
  function DocumentObject(doc: Document): (v: JsValue)
    ensures v.PlainObject?
    decreases |doc|
  {
    if doc == [] then EmptyObject
    else
      var last := doc[|doc| - 1];
      PlainObject(DocumentObject(doc[..|doc| - 1]).fields[last.key := last.value])
  }

  /** The dumped object holds exactly the document's keys, each with its own value. */
  lemma {:induction false} DocumentObjectFields(doc: Document)
    requires DistinctKeys(doc)
    ensures forall k :: k in DocumentObject(doc).fields <==> exists i :: 0 <= i < |doc| && doc[i].key == k
    ensures forall i :: 0 <= i < |doc| ==> DocumentObject(doc).fields[doc[i].key] == doc[i].value
    decreases |doc|
  {
    if doc != [] {
      var init := doc[..|doc| - 1];
      assert DistinctKeys(init) by {
        forall i, j | 0 <= i < j < |init| ensures init[i].key != init[j].key {
          assert init[i] == doc[i] && init[j] == doc[j];
        }
      }
      DocumentObjectFields(init);
      forall k ensures k in DocumentObject(doc).fields <==> exists i :: 0 <= i < |doc| && doc[i].key == k {
        if exists i :: 0 <= i < |init| && init[i].key == k {
          var i :| 0 <= i < |init| && init[i].key == k;
          assert doc[i].key == k;
        }
        if exists i :: 0 <= i < |doc| && doc[i].key == k {
          var i :| 0 <= i < |doc| && doc[i].key == k;
          if i < |init| {
            assert init[i].key == k;
          }
        }
      }
      forall i | 0 <= i < |doc| ensures DocumentObject(doc).fields[doc[i].key] == doc[i].value {
        if i < |init| {
          assert init[i] == doc[i];
        }
      }
    }
  }
}
