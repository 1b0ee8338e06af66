/** The sandbox wire: length-prefixed frames read off a stream socket, a
    type-tagged codec, and packed messages of positional and keyword values
    (`sandbox/protocol.py`). */
module Wire {
  import opened Ordering

  type Byte = b: int | 0 <= b < 256
  type Bytes = seq<Byte>

  /** Anything that is neither bytes nor text, by identity: what is in it is
      torch's business. */
  type Object = int

  datatype Value = Raw(data: Bytes) | Text(text: string) | Other(object: Object)

  datatype Fault = ShortNumber | UnknownTag | BadText | BadObject | Closed

  datatype Result<+T> = Ok(value: T) | Bad(fault: Fault)

  /** UTF-8 and torch serialization. */
  datatype Codec = Codec(utf8: string -> Bytes, text: Bytes -> Option<string>,
                         save: Object -> Bytes, load: Bytes -> Option<Object>)

  /** Each is undone by its inverse. */
  ghost predicate Inverse(c: Codec) {
    (forall t :: c.text(c.utf8(t)) == Some(t)) && (forall o :: c.load(c.save(o)) == Some(o))
  }

  // ----------------------------------------------------------------- numbers

  function Limit(width: nat): nat {
    if width == 0 then 1 else 256 * Limit(width - 1)
  }

  /** Big-endian, the way `struct` writes it. */
  function BigEndian(n: nat, width: nat): (bs: Bytes)
    ensures |bs| == width
  {
    if width == 0 then [] else BigEndian(n / 256, width - 1) + [n % 256]
  }

  function Number(bs: Bytes): nat {
    if bs == [] then 0 else Number(bs[..|bs| - 1]) * 256 + bs[|bs| - 1]
  }

  /** `struct.pack`: None where it raises. */
  function PackNumber(n: nat, width: nat): Option<Bytes> {
    if n < Limit(width) then Some(BigEndian(n, width)) else None
  }

  lemma {:induction false} NumberRoundTrip(n: nat, width: nat)
    requires n < Limit(width)
    ensures Number(BigEndian(n, width)) == n
  {
    if width > 0 {
      NumberRoundTrip(n / 256, width - 1);
      var bs := BigEndian(n, width);
      assert bs[..width - 1] == BigEndian(n / 256, width - 1);
    }
  }

  // ------------------------------------------------------------------- codec

  function Encode(c: Codec, v: Value): (bs: Bytes)
    ensures bs != []
  {
    match v
    case Raw(data) => [1] + data
    case Text(text) => [2] + c.utf8(text)
    case Other(o) => [3] + c.save(o)
  }

  function Decode(c: Codec, blob: Bytes): Result<Value> {
    if blob == [] then Bad(UnknownTag)
    else if blob[0] == 1 then Ok(Raw(blob[1..]))
    else if blob[0] == 2 then
      match c.text(blob[1..])
      case Some(t) => Ok(Text(t))
      case None => Bad(BadText)
    else if blob[0] == 3 then
      match c.load(blob[1..])
      case Some(o) => Ok(Other(o))
      case None => Bad(BadObject)
    else Bad(UnknownTag)
  }

  /** A value comes back as what it was: tags keep bytes, text and the rest apart. */
  lemma DecodeEncode(c: Codec, v: Value)
    requires Inverse(c)
    ensures Decode(c, Encode(c, v)) == Ok(v)
  {
    assert Encode(c, v)[1..] == match v case Raw(data) => data case Text(t) => c.utf8(t) case Other(o) => c.save(o);
  }

  lemma EncodingsDiffer(c: Codec, v: Value, w: Value)
    requires Inverse(c) && Encode(c, v) == Encode(c, w)
    ensures v == w
  {
    DecodeEncode(c, v);
    DecodeEncode(c, w);
  }

  // ---------------------------------------------------------------- messages

  /** Keyword values in the order they were given; a dictionary, so no key twice. */
  datatype Message = Message(values: seq<Value>, keywords: seq<(string, Value)>)

  predicate KeysDiffer(kw: seq<(string, Value)>) {
    forall i, j :: 0 <= i < j < |kw| ==> kw[i].0 != kw[j].0
  }

  /** One item behind its length. */
  function Field(item: Bytes): Option<Bytes> {
    match PackNumber(|item|, 4)
    case Some(n) => Some(n + item)
    case None => None
  }

  function Joined(a: Option<Bytes>, b: Option<Bytes>): Option<Bytes> {
    if a.Some? && b.Some? then Some(a.value + b.value) else None
  }

  function Fields(items: seq<Bytes>): Option<Bytes> {
    if items == [] then Some([]) else Joined(Fields(items[..|items| - 1]), Field(items[|items| - 1]))
  }

  function ValueItems(c: Codec, values: seq<Value>): (items: seq<Bytes>)
    ensures |items| == |values|
  {
    seq(|values|, i requires 0 <= i < |values| => Encode(c, values[i]))
  }

  function KeywordItems(c: Codec, kw: seq<(string, Value)>): seq<Bytes> {
    if kw == [] then []
    else
      var last := kw[|kw| - 1];
      KeywordItems(c, kw[..|kw| - 1]) + [c.utf8(last.0), Encode(c, last.1)]
  }

  /** What `pack` produces: two counted runs of fields. */
  function Packed(c: Codec, m: Message): Option<Bytes> {
    Joined(Joined(PackNumber(|m.values|, 4), Fields(ValueItems(c, m.values))),
           Joined(PackNumber(|m.keywords|, 4), Fields(KeywordItems(c, m.keywords))))
  }

  predicate Short(items: seq<Bytes>) {
    forall i :: 0 <= i < |items| ==> |items[i]| < Limit(4)
  }

  lemma {:induction false} FieldsFit(items: seq<Bytes>)
    ensures Fields(items).Some? <==> Short(items)
  {
    if items != [] {
      var last := |items| - 1;
      FieldsFit(items[..last]);
      assert Short(items) <==> Short(items[..last]) && |items[last]| < Limit(4);
    }
  }

  /** `pack` raises exactly when a count or a length needs more than 32 bits. */
  lemma PackFitsIff(c: Codec, m: Message)
    ensures Packed(c, m).Some? <==>
              && |m.values| < Limit(4) && |m.keywords| < Limit(4)
              && Short(ValueItems(c, m.values)) && Short(KeywordItems(c, m.keywords))
  {
    FieldsFit(ValueItems(c, m.values));
    FieldsFit(KeywordItems(c, m.keywords));
  }

  // --------------------------------------------------------------- unpacking

  /** Python's `blob[i:j]`, which never raises. */
  function Slice(blob: Bytes, i: nat, j: nat): Bytes {
    if i >= |blob| || j <= i then [] else blob[i..if j < |blob| then j else |blob|]
  }

  /** `struct.unpack(">I", blob[at:at + 4])`. */
  function NumberAt(blob: Bytes, at: nat): Result<nat> {
    var bs := Slice(blob, at, at + 4);
    if |bs| == 4 then Ok(Number(bs)) else Bad(ShortNumber)
  }

  /** `take`, from an offset: the chunk and the offset after it. */
  function Take(blob: Bytes, at: nat): Result<(Bytes, nat)> {
    match NumberAt(blob, at)
    case Bad(f) => Bad(f)
    case Ok(n) => Ok((Slice(blob, at + 4, at + 4 + n), at + 4 + n))
  }

  function TakeValue(c: Codec, blob: Bytes, at: nat): Result<(Value, nat)> {
    match Take(blob, at)
    case Bad(f) => Bad(f)
    case Ok((chunk, next)) =>
      match Decode(c, chunk)
      case Bad(f) => Bad(f)
      case Ok(v) => Ok((v, next))
  }

  function TakeValues(c: Codec, blob: Bytes, at: nat, count: nat): Result<(seq<Value>, nat)> {
    if count == 0 then Ok(([], at))
    else
      match TakeValues(c, blob, at, count - 1)
      case Bad(f) => Bad(f)
      case Ok((vs, next)) =>
        match TakeValue(c, blob, next)
        case Bad(f) => Bad(f)
        case Ok((v, after)) => Ok((vs + [v], after))
  }

  /** Assigning into a dictionary: a key already there keeps its place. */
  function Put(kw: seq<(string, Value)>, key: string, v: Value): seq<(string, Value)> {
    if kw == [] then [(key, v)]
    else if kw[0].0 == key then [(key, v)] + kw[1..]
    else [kw[0]] + Put(kw[1..], key, v)
  }

  /** It is a dictionary's assignment: every other entry keeps its place and value, and
      no key is there twice. */
  lemma {:induction false} PutAssigns(kw: seq<(string, Value)>, key: string, v: Value)
    ensures |kw| <= |Put(kw, key, v)| <= |kw| + 1 && (key, v) in Put(kw, key, v)
    ensures |Put(kw, key, v)| == |kw| <==> exists i :: 0 <= i < |kw| && kw[i].0 == key
    ensures forall i :: 0 <= i < |kw| ==> Put(kw, key, v)[i].0 == kw[i].0 && (kw[i].0 != key ==> Put(kw, key, v)[i] == kw[i])
    ensures KeysDiffer(kw) ==> KeysDiffer(Put(kw, key, v))
  {
    if kw != [] && kw[0].0 != key {
      PutAssigns(kw[1..], key, v);
      var rest := Put(kw[1..], key, v);
      assert Put(kw, key, v) == [kw[0]] + rest;
      assert forall i :: 0 <= i < |kw[1..]| ==> kw[1..][i] == kw[i + 1];
      if KeysDiffer(kw) {
        FirstStaysApart(kw, key, v);
      }
    } else if kw != [] {
      assert Put(kw, key, v)[0] == (key, v);
    }
  }

  lemma FirstStaysApart(kw: seq<(string, Value)>, key: string, v: Value)
    requires kw != [] && kw[0].0 != key && KeysDiffer(kw)
    ensures KeysDiffer(kw[1..]) && forall i :: 0 <= i < |Put(kw[1..], key, v)| ==> Put(kw[1..], key, v)[i].0 != kw[0].0
  {
    PutNames(kw[1..], key, v, kw[0].0);
  }

  lemma {:induction false} PutNames(kw: seq<(string, Value)>, key: string, v: Value, other: string)
    requires key != other && forall i :: 0 <= i < |kw| ==> kw[i].0 != other
    ensures forall i :: 0 <= i < |Put(kw, key, v)| ==> Put(kw, key, v)[i].0 != other
  {
    if kw != [] && kw[0].0 != key {
      PutNames(kw[1..], key, v, other);
    }
  }

  function TakeKeyword(c: Codec, blob: Bytes, at: nat): Result<(string, Value, nat)> {
    match Take(blob, at)
    case Bad(f) => Bad(f)
    case Ok((chunk, next)) =>
      match c.text(chunk)
      case None => Bad(BadText)
      case Some(key) =>
        match TakeValue(c, blob, next)
        case Bad(f) => Bad(f)
        case Ok((v, after)) => Ok((key, v, after))
  }

  function TakeKeywords(c: Codec, blob: Bytes, at: nat, count: nat): Result<(seq<(string, Value)>, nat)> {
    if count == 0 then Ok(([], at))
    else
      match TakeKeywords(c, blob, at, count - 1)
      case Bad(f) => Bad(f)
      case Ok((kw, next)) =>
        match TakeKeyword(c, blob, next)
        case Bad(f) => Bad(f)
        case Ok((key, v, after)) => Ok((Put(kw, key, v), after))
  }

  /** What `unpack` makes of any bytes whatever. */
  function Unpacked(c: Codec, blob: Bytes): Result<Message> {
    match NumberAt(blob, 0)
    case Bad(f) => Bad(f)
    case Ok(count) =>
      match TakeValues(c, blob, 4, count)
      case Bad(f) => Bad(f)
      case Ok((values, at)) =>
        if at >= |blob| then Ok(Message(values, []))
        else
          match NumberAt(blob, at)
          case Bad(f) => Bad(f)
          case Ok(kcount) =>
            match TakeKeywords(c, blob, at + 4, kcount)
            case Bad(f) => Bad(f)
            case Ok((kw, _)) => Ok(Message(values, kw))
  }

  lemma {:induction false} KeywordsApart(c: Codec, blob: Bytes, at: nat, count: nat)
    ensures TakeKeywords(c, blob, at, count).Ok? ==> KeysDiffer(TakeKeywords(c, blob, at, count).value.0)
  {
    hide TakeKeyword, Put;
    if count > 0 {
      KeywordsApart(c, blob, at, count - 1);
      match TakeKeywords(c, blob, at, count - 1)
      case Bad(_) =>
      case Ok((kw, next)) =>
        match TakeKeyword(c, blob, next)
        case Bad(_) =>
        case Ok((key, v, _)) => PutAssigns(kw, key, v);
    }
  }

  /** Whatever bytes come in, the keywords read from them name nothing twice. */
  lemma UnpackedNamesNothingTwice(c: Codec, blob: Bytes)
    ensures Unpacked(c, blob).Ok? ==> KeysDiffer(Unpacked(c, blob).value.keywords)
  {
    forall at: nat, count ensures TakeKeywords(c, blob, at, count).Ok? ==> KeysDiffer(TakeKeywords(c, blob, at, count).value.0) {
      KeywordsApart(c, blob, at, count);
    }
    hide TakeKeywords, TakeValues, NumberAt;
  }

  // ------------------------------------------------------------- round trip

  lemma NumberAtRoundTrip(pre: Bytes, n: nat, post: Bytes)
    requires n < Limit(4)
    ensures NumberAt(pre + BigEndian(n, 4) + post, |pre|) == Ok(n)
  {
    var blob := pre + BigEndian(n, 4) + post;
    assert Slice(blob, |pre|, |pre| + 4) == BigEndian(n, 4);
    NumberRoundTrip(n, 4);
  }

  lemma TakeRoundTrip(pre: Bytes, item: Bytes, post: Bytes)
    requires Field(item).Some?
    ensures Take(pre + Field(item).value + post, |pre|) == Ok((item, |pre| + |Field(item).value|))
  {
    var blob, head := pre + Field(item).value + post, BigEndian(|item|, 4);
    assert blob == pre + head + (item + post);
    NumberAtRoundTrip(pre, |item|, item + post);
    hide Number, BigEndian, Limit;
    assert blob == (pre + head) + item + post;
    assert Slice(blob, |pre| + 4, |pre| + 4 + |item|) == item;
  }

  lemma ValueRoundTrip(c: Codec, pre: Bytes, v: Value, post: Bytes)
    requires Inverse(c) && Field(Encode(c, v)).Some?
    ensures TakeValue(c, pre + Field(Encode(c, v)).value + post, |pre|) ==
            Ok((v, |pre| + |Field(Encode(c, v)).value|))
  {
    TakeRoundTrip(pre, Encode(c, v), post);
    DecodeEncode(c, v);
    hide Inverse, Encode, Decode, Field, Take;
  }

  lemma FieldsSplit(items: seq<Bytes>, item: Bytes)
    ensures Fields(items + [item]) == Joined(Fields(items), Field(item))
  {
    assert (items + [item])[..|items|] == items;
  }

  lemma {:induction false} ValuesRoundTrip(c: Codec, pre: Bytes, values: seq<Value>, post: Bytes)
    requires Inverse(c) && Fields(ValueItems(c, values)).Some?
    ensures var f := Fields(ValueItems(c, values)).value;
            TakeValues(c, pre + f + post, |pre|, |values|) == Ok((values, |pre| + |f|))
    decreases |values|
  {
    hide Inverse, Encode, Field, TakeValue, Fields;
    if values == [] {
      NoFields(ValueItems(c, values));
    } else {
      var last := |values| - 1;
      var init, v := values[..last], values[last];
      assert ValueItems(c, values) == ValueItems(c, init) + [Encode(c, v)];
      FieldsSplit(ValueItems(c, init), Encode(c, v));
      var f, g := Fields(ValueItems(c, init)).value, Field(Encode(c, v)).value;
      ValuesRoundTrip(c, pre, init, g + post);
      assert pre + (f + g) + post == pre + f + (g + post);
      ValueRoundTrip(c, pre + f, v, post);
      assert pre + (f + g) + post == (pre + f) + g + post;
      assert init + [v] == values;
    }
  }

  lemma NoFields(items: seq<Bytes>)
    requires items == []
    ensures Fields(items) == Some([])
  {
  }

  lemma {:induction false} PutNew(kw: seq<(string, Value)>, key: string, v: Value)
    requires forall i :: 0 <= i < |kw| ==> kw[i].0 != key
    ensures Put(kw, key, v) == kw + [(key, v)]
  {
    if kw != [] {
      PutNew(kw[1..], key, v);
    }
  }

  lemma TextBack(c: Codec, t: string)
    requires Inverse(c)
    ensures c.text(c.utf8(t)) == Some(t)
  {
  }

  /** The key and then the value, from the two fields. */
  lemma KeywordFrom(c: Codec, blob: Bytes, at: nat, next: nat, after: nat, key: string, v: Value)
    requires c.text(c.utf8(key)) == Some(key) && Take(blob, at) == Ok((c.utf8(key), next))
    requires TakeValue(c, blob, next) == Ok((v, after))
    ensures TakeKeyword(c, blob, at) == Ok((key, v, after))
  {
    hide Take, TakeValue;
  }

  lemma KeywordRoundTrip(c: Codec, pre: Bytes, key: string, v: Value, post: Bytes)
    requires Inverse(c) && Field(c.utf8(key)).Some? && Field(Encode(c, v)).Some?
    ensures var f, g := Field(c.utf8(key)).value, Field(Encode(c, v)).value;
            TakeKeyword(c, pre + f + g + post, |pre|) == Ok((key, v, |pre| + |f| + |g|))
  {
    hide Inverse, Encode, Field, TakeValue, Take, TakeKeyword;
    var f, g := Field(c.utf8(key)).value, Field(Encode(c, v)).value;
    var blob := pre + f + g + post;
    assert blob == pre + f + (g + post);
    TextBack(c, key);
    TakeRoundTrip(pre, c.utf8(key), g + post);
    ValueRoundTrip(c, pre + f, v, post);
    assert |pre + f| == |pre| + |f|;
    KeywordFrom(c, blob, |pre|, |pre| + |f|, |pre| + |f| + |g|, key, v);
  }

  lemma OneMoreKeyword(c: Codec, blob: Bytes, at: nat, init: seq<(string, Value)>, next: nat, key: string, v: Value, after: nat)
    requires TakeKeywords(c, blob, at, |init|) == Ok((init, next)) && TakeKeyword(c, blob, next) == Ok((key, v, after))
    requires forall i :: 0 <= i < |init| ==> init[i].0 != key
    ensures TakeKeywords(c, blob, at, |init| + 1) == Ok((init + [(key, v)], after))
  {
    hide TakeKeyword;
    PutNew(init, key, v);
  }

  lemma NoKeywords(c: Codec, blob: Bytes, at: nat)
    ensures Fields(KeywordItems(c, [])) == Some([]) && TakeKeywords(c, blob, at, 0) == Ok(([], at))
  {
  }

  lemma KeywordFields(c: Codec, kw: seq<(string, Value)>)
    requires kw != []
    ensures var last := kw[|kw| - 1];
      Fields(KeywordItems(c, kw)) ==
      Joined(Joined(Fields(KeywordItems(c, kw[..|kw| - 1])), Field(c.utf8(last.0))), Field(Encode(c, last.1)))
  {
    hide Encode, Field, Fields;
    var last := kw[|kw| - 1];
    var items := KeywordItems(c, kw[..|kw| - 1]);
    assert KeywordItems(c, kw) == (items + [c.utf8(last.0)]) + [Encode(c, last.1)];
    FieldsSplit(items + [c.utf8(last.0)], Encode(c, last.1));
    FieldsSplit(items, c.utf8(last.0));
  }

  lemma {:induction false} KeywordsRoundTrip(c: Codec, pre: Bytes, kw: seq<(string, Value)>, post: Bytes)
    requires Inverse(c) && KeysDiffer(kw) && Fields(KeywordItems(c, kw)).Some?
    ensures var f := Fields(KeywordItems(c, kw)).value;
            TakeKeywords(c, pre + f + post, |pre|, |kw|) == Ok((kw, |pre| + |f|))
    decreases |kw|
  {
    hide Inverse, Encode, Field, TakeKeyword, Fields, TakeKeywords, KeywordItems;
    if kw == [] {
      NoKeywords(c, pre + post, |pre|);
      assert pre + [] + post == pre + post;
    } else {
      var last := |kw| - 1;
      var init, key, v := kw[..last], kw[last].0, kw[last].1;
      KeywordFields(c, kw);
      var items := KeywordItems(c, init);
      var f, g, h := Fields(items).value, Field(c.utf8(key)).value, Field(Encode(c, v)).value;
      var blob := pre + f + g + h + post;
      assert blob == pre + f + (g + h + post) && blob == pre + (f + g + h) + post;
      KeywordsRoundTrip(c, pre, init, g + h + post);
      KeywordRoundTrip(c, pre + f, key, v, post);
      assert |pre + f| == |pre| + |f|;
      OneMoreKeyword(c, blob, |pre|, init, |pre| + |f|, key, v, |pre| + |f| + |g| + |h|);
      assert init + [(key, v)] == kw;
    }
  }

  /** A packed message unpacks to exactly itself, values and keywords in order. */
  lemma UnpackPack(c: Codec, m: Message)
    requires Inverse(c) && KeysDiffer(m.keywords) && Packed(c, m).Some?
    ensures Unpacked(c, Packed(c, m).value) == Ok(m)
  {
    hide Inverse, Encode, Field, TakeKeywords, TakeValues, Fields, NumberAt, Limit, BigEndian;
    var blob := Packed(c, m).value;
    var n, k := BigEndian(|m.values|, 4), BigEndian(|m.keywords|, 4);
    var f, g := Fields(ValueItems(c, m.values)).value, Fields(KeywordItems(c, m.keywords)).value;
    assert blob == (n + f) + (k + g);
    assert blob == [] + n + (f + (k + g));
    NumberAtRoundTrip([], |m.values|, f + (k + g));
    assert blob == n + f + (k + g);
    ValuesRoundTrip(c, n, m.values, k + g);
    assert blob == (n + f) + k + g;
    NumberAtRoundTrip(n + f, |m.keywords|, g);
    KeywordsRoundTrip(c, n + f + k, m.keywords, []);
    assert blob == (n + f + k) + g + [];
  }

  // ------------------------------------------------------------ the two loops

  /** `pack`. */
  method Pack(c: Codec, m: Message) returns (r: Option<Bytes>)
    ensures r == Packed(c, m)
  {
    hide Encode, Field, Limit, Fields;
    var items, kitems := ValueItems(c, m.values), KeywordItems(c, m.keywords);
    var out := PackNumber(|m.values|, 4);
    ghost var head := out;
    NoFields(items[..0]);
    JoinedNothing(head);
    for i := 0 to |items|
      invariant out == Joined(head, Fields(items[..i]))
    {
      FieldsSplit(items[..i], items[i]);
      assert items[..i] + [items[i]] == items[..i + 1];
      JoinedTwice(head, Fields(items[..i]), Field(items[i]));
      out := Joined(out, Field(items[i]));
    }
    assert items[..|items|] == items;
    ghost var first := out;
    out := Joined(out, PackNumber(|m.keywords|, 4));
    ghost var count := PackNumber(|m.keywords|, 4);
    NoFields(kitems[..0]);
    JoinedNothing(count);
    for i := 0 to |kitems|
      invariant out == Joined(first, Joined(count, Fields(kitems[..i])))
    {
      FieldsSplit(kitems[..i], kitems[i]);
      assert kitems[..i] + [kitems[i]] == kitems[..i + 1];
      JoinedTwice(count, Fields(kitems[..i]), Field(kitems[i]));
      JoinedTwice(first, Joined(count, Fields(kitems[..i])), Field(kitems[i]));
      out := Joined(out, Field(kitems[i]));
    }
    assert kitems[..|kitems|] == kitems;
    return out;
  }

  lemma JoinedNothing(a: Option<Bytes>)
    ensures Joined(a, Some([])) == a
  {
    if a.Some? {
      assert a.value + [] == a.value;
    }
  }

  lemma JoinedTwice(a: Option<Bytes>, b: Option<Bytes>, d: Option<Bytes>)
    ensures Joined(Joined(a, b), d) == Joined(a, Joined(b, d))
  {
    if a.Some? && b.Some? && d.Some? {
      assert (a.value + b.value) + d.value == a.value + (b.value + d.value);
    }
  }

  /** `unpack`. */
  method Unpack(c: Codec, blob: Bytes) returns (r: Result<Message>)
    ensures r == Unpacked(c, blob)
  {
    hide TakeKeyword, TakeValue, NumberAt;
    var count := NumberAt(blob, 0);
    if count.Bad? {
      return Bad(count.fault);
    }
    var at := 4;
    var values := [];
    for i := 0 to count.value
      invariant TakeValues(c, blob, 4, i) == Ok((values, at))
    {
      var v := TakeValue(c, blob, at);
      if v.Bad? {
        TakingFails(c, blob, 4, i + 1, count.value);
        return Bad(v.fault);
      }
      values, at := values + [v.value.0], v.value.1;
    }
    if at >= |blob| {
      return Ok(Message(values, []));
    }
    var kcount := NumberAt(blob, at);
    if kcount.Bad? {
      return Bad(kcount.fault);
    }
    ghost var start := at + 4;
    at := at + 4;
    var kw := [];
    for i := 0 to kcount.value
      invariant TakeKeywords(c, blob, start, i) == Ok((kw, at))
    {
      var k := TakeKeyword(c, blob, at);
      if k.Bad? {
        TakingKeywordsFails(c, blob, start, i + 1, kcount.value);
        return Bad(k.fault);
      }
      kw, at := Put(kw, k.value.0, k.value.1), k.value.2;
    }
    return Ok(Message(values, kw));
  }

  lemma {:induction false} TakingFails(c: Codec, blob: Bytes, at: nat, some: nat, all: nat)
    requires some <= all && TakeValues(c, blob, at, some).Bad?
    ensures TakeValues(c, blob, at, all) == TakeValues(c, blob, at, some)
    decreases all
  {
    hide TakeValue;
    if some < all {
      TakingFails(c, blob, at, some, all - 1);
    }
  }

  lemma {:induction false} TakingKeywordsFails(c: Codec, blob: Bytes, at: nat, some: nat, all: nat)
    requires some <= all && TakeKeywords(c, blob, at, some).Bad?
    ensures TakeKeywords(c, blob, at, all) == TakeKeywords(c, blob, at, some)
    decreases all
  {
    hide TakeKeyword, Put;
    if some < all {
      TakingKeywordsFails(c, blob, at, some, all - 1);
    }
  }

  // ------------------------------------------------------------------ frames

  /** `send_frame`: None where the length does not fit. */
  function Framed(data: Bytes): Option<Bytes> {
    Joined(PackNumber(|data|, 8), Some(data))
  }

  /** What `recv_frame` takes off a stream, and what it leaves. */
  datatype Reading = Frame(data: Bytes, rest: Bytes) | Cut

  function ReadFrame(stream: Bytes): Reading {
    if |stream| < 8 then Cut
    else
      var n := Number(stream[..8]);
      if |stream| < 8 + n then Cut else Frame(stream[8..8 + n], stream[8 + n..])
  }

  lemma FrameRoundTrip(data: Bytes, rest: Bytes)
    requires Framed(data).Some?
    ensures ReadFrame(Framed(data).value + rest) == Frame(data, rest)
  {
    NumberRoundTrip(|data|, 8);
    hide Number, BigEndian, Limit;
    var head := BigEndian(|data|, 8);
    var stream := head + data + rest;
    assert stream[..8] == head && stream[8..8 + |data|] == data && stream[8 + |data|..] == rest;
  }

  /** A connection that closes inside a frame is always noticed. */
  lemma CutFrameIsNoticed(data: Bytes, kept: nat)
    requires Framed(data).Some? && kept < |Framed(data).value|
    ensures ReadFrame(Framed(data).value[..kept]) == Cut
  {
    NumberRoundTrip(|data|, 8);
    hide Number, BigEndian, Limit;
    var head := BigEndian(|data|, 8);
    var whole := head + data;
    if kept >= 8 {
      assert whole[..kept][..8] == head;
    }
  }

  /** The receiving end of a stream socket: the bytes still to come before the
      peer closes. How many of them one `recv` returns is up to the kernel. */
  class Socket {
    var stream: Bytes

    constructor (stream: Bytes)
      ensures this.stream == stream
    {
      this.stream := stream;
    }

    /** At least one byte while there are any, and nothing once there are none. */
    method Recv(max: nat) returns (chunk: Bytes)
      requires max > 0
      modifies this
      ensures |chunk| <= max && chunk + stream == old(stream)
      ensures chunk == [] <==> old(stream) == []
    {
      if stream == [] {
        return [];
      }
      var most := if max < |stream| then max else |stream|;
      var n :| 1 <= n <= most;
      chunk, stream := stream[..n], stream[n..];
    }
  }

  /** `recvn`: exactly the next `n` bytes, however they arrive, or a closed
      connection if there are fewer. */
  method RecvN(sock: Socket, n: nat) returns (r: Result<Bytes>)
    modifies sock
    ensures if n <= |old(sock.stream)| then r == Ok(old(sock.stream)[..n]) && sock.stream == old(sock.stream)[n..]
            else r == Bad(Closed) && sock.stream == []
  {
    var buffer := [];
    while |buffer| < n
      invariant |buffer| <= n && buffer + sock.stream == old(sock.stream)
    {
      var chunk := sock.Recv(n - |buffer|);
      if chunk == [] {
        return Bad(Closed);
      }
      assert (buffer + chunk) + sock.stream == buffer + (chunk + sock.stream);
      buffer := buffer + chunk;
    }
    return Ok(buffer);
  }

  /** `recv_frame`. */
  method RecvFrame(sock: Socket) returns (r: Result<Bytes>)
    modifies sock
    ensures match ReadFrame(old(sock.stream))
            case Frame(data, rest) => r == Ok(data) && sock.stream == rest
            case Cut => r == Bad(Closed) && sock.stream == []
  {
    var head := RecvN(sock, 8);
    if head.Bad? {
      return head;
    }
    ghost var s, n := old(sock.stream), Number(head.value);
    assert 8 + n <= |s| ==> s[8..][..n] == s[8..8 + n] && s[8..][n..] == s[8 + n..];
    r := RecvN(sock, Number(head.value));
  }

  // ------------------------------------------------------- whole conversations

  /** A message as it goes out: packed, then framed. */
  function Sent(c: Codec, m: Message): Option<Bytes> {
    match Packed(c, m)
    case Some(data) => Framed(data)
    case None => None
  }

  function Stream(c: Codec, ms: seq<Message>): Option<Bytes> {
    if ms == [] then Some([]) else Joined(Sent(c, ms[0]), Stream(c, ms[1..]))
  }

  /** A conversation can be sent exactly when every message of it can be packed into
      fewer bytes than a frame can count. */
  lemma {:induction false} SendableIff(c: Codec, ms: seq<Message>)
    ensures Stream(c, ms).Some? <==>
              forall i :: 0 <= i < |ms| ==> Packed(c, ms[i]).Some? && |Packed(c, ms[i]).value| < Limit(8)
  {
    hide Packed;
    if ms != [] {
      SendableIff(c, ms[1..]);
      assert Sent(c, ms[0]).Some? <==> Packed(c, ms[0]).Some? && |Packed(c, ms[0]).value| < Limit(8);
      assert forall i :: 0 <= i < |ms| ==> ms[i] == if i == 0 then ms[0] else ms[1..][i - 1];
    }
  }

  /** What reading `n` messages off a stream yields, whatever is on it. */
  function Reads(c: Codec, stream: Bytes, n: nat): seq<Result<Message>>
    decreases n
  {
    if n == 0 then []
    else
      match ReadFrame(stream)
      case Frame(data, rest) => [Unpacked(c, data)] + Reads(c, rest, n - 1)
      case Cut => [Bad(Closed)] + Reads(c, [], n - 1)
  }

  /** The receiving loop of one end. */
  method ReceiveAll(c: Codec, sock: Socket, n: nat) returns (got: seq<Result<Message>>)
    modifies sock
    ensures got == Reads(c, old(sock.stream), n)
  {
    hide Unpacked, ReadFrame;
    got := [];
    for i := 0 to n
      invariant Reads(c, old(sock.stream), n) == got + Reads(c, sock.stream, n - i)
    {
      ghost var before, sofar := sock.stream, got;
      var data := RecvFrame(sock);
      var one;
      if data.Ok? {
        one := Unpack(c, data.value);
      } else {
        one := Bad(data.fault);
      }
      got := got + [one];
      assert Reads(c, before, n - i) == [one] + Reads(c, sock.stream, n - i - 1);
      assert sofar + ([one] + Reads(c, sock.stream, n - i - 1)) == got + Reads(c, sock.stream, n - i - 1);
    }
  }

  predicate AllKeysDiffer(ms: seq<Message>) {
    forall i :: 0 <= i < |ms| ==> KeysDiffer(ms[i].keywords)
  }

  function Received(ms: seq<Message>): seq<Result<Message>> {
    seq(|ms|, i requires 0 <= i < |ms| => Ok(ms[i]))
  }

  /** Any sequence of messages that could be sent is received as it was, in order,
      whatever follows it on the stream. */
  lemma {:induction false} ConversationRoundTrip(c: Codec, ms: seq<Message>, rest: Bytes)
    requires Inverse(c) && AllKeysDiffer(ms) && Stream(c, ms).Some?
    ensures Reads(c, Stream(c, ms).value + rest, |ms|) == Received(ms)
    decreases |ms|
  {
    hide Inverse, Packed, Unpacked, Framed, ReadFrame, KeysDiffer;
    if ms != [] {
      var tail := Stream(c, ms[1..]).value;
      ConversationRoundTrip(c, ms[1..], rest);
      UnpackPack(c, ms[0]);
      FrameRoundTrip(Packed(c, ms[0]).value, tail + rest);
      var stream := Stream(c, ms).value + rest;
      assert stream == Sent(c, ms[0]).value + (tail + rest);
      assert Received(ms) == [Ok(ms[0])] + Received(ms[1..]);
    }
  }

  /** The whole way: sent on one end, delivered in whatever chunks, received on the
      other. */
  method Exchange(c: Codec, ms: seq<Message>, ghost rest: Bytes, sock: Socket) returns (got: seq<Result<Message>>)
    requires Inverse(c) && AllKeysDiffer(ms) && Stream(c, ms).Some? && sock.stream == Stream(c, ms).value + rest
    modifies sock
    ensures got == Received(ms)
  {
    ConversationRoundTrip(c, ms, rest);
    got := ReceiveAll(c, sock, |ms|);
  }
}
