/** The S3 backend as a record codec over a map of objects (pkg/backends/s3.go). */
module S3 {
  import opened Basics
  import opened Text
  import opened Protocol
  import Hex
  import Decimal

  datatype Object = Object(body: Bytes, metadata: map<string, string>)

  type Objects = map<string, Object>

  /** The key handlers pass to the backend (server.go:769-771). */
  function BackendKey(id: ActionID): Bytes {
    ToBytes("v2" + Hex.Encode(id))
  }

  /** actionIDToKey: where the bucket keeps a backend key. */
  function ObjectKey(prefix: string, key: Bytes): string {
    if prefix != "" then prefix + Hex.Encode(key) else Hex.Encode(key)
  }

  /** The object Put uploads; None when the body is shorter than announced. */
  function ObjectFor(outputID: Bytes, body: Option<Bytes>, bodySize: int64, now: int64): Option<Object> {
    var metadata := map["outputid" := Hex.Encode(outputID), "size" := Decimal.Print(bodySize),
        "time" := Decimal.Print(now)];
    if bodySize > 0 && body.Some? then
      if |body.value| < bodySize then None else Some(Object(body.value[..bodySize], metadata))
    else Some(Object([], metadata))
  }

  /** A missing key of a Go map reads as the empty string. */
  function Field(m: map<string, string>, k: string): string {
    if k in m then m[k] else ""
  }

  /** What Get makes of an object; None is a miss, which includes unreadable metadata. */
  function Decode(o: Object): Option<Record> {
    var outputID := Hex.Decode(Field(o.metadata, "outputid"));
    var size := Decimal.ParseInt(Field(o.metadata, "size"));
    var time := Decimal.ParseInt(Field(o.metadata, "time"));
    if outputID.None? || size.None? || time.None? then None
    else Some(Record(outputID.value, o.body, size.value, time.value))
  }

  /** What the bucket holds for an action ID, as Get reports it. */
  function RecordUnder(objects: Objects, prefix: string, key: Bytes): Option<Record> {
    var k := ObjectKey(prefix, key);
    if k in objects then Decode(objects[k]) else None
  }

  /** The remote object under an action ID. */
  function RemoteAt(objects: Objects, prefix: string, id: ActionID): Option<Record> {
    RecordUnder(objects, prefix, BackendKey(id))
  }

  lemma BackendKeyInjective(a: ActionID, b: ActionID)
    requires BackendKey(a) == BackendKey(b)
    ensures a == b
  {
    KeyText(a);
    KeyText(b);
    assert ("v2" + Hex.Encode(a))[2..] == Hex.Encode(a) && ("v2" + Hex.Encode(b))[2..] == Hex.Encode(b);
    Hex.Injective(a, b);
  }

  lemma KeyText(id: ActionID)
    ensures FromBytes(BackendKey(id)) == "v2" + Hex.Encode(id)
  {
    Hex.Encoded(id);
    var s := "v2" + Hex.Encode(id);
    forall i | 0 <= i < |s| ensures s[i] < '\U{80}' {
      assert i >= 2 ==> Hex.IsHexDigit(Hex.Encode(id)[i - 2]);
    }
    BytesOfText(s);
  }

  /** Distinct backend keys live under distinct object keys. */
  lemma ObjectKeyInjective(prefix: string, a: Bytes, b: Bytes)
    requires ObjectKey(prefix, a) == ObjectKey(prefix, b)
    ensures a == b
  {
    assert (prefix + Hex.Encode(a))[|prefix|..] == Hex.Encode(a);
    assert (prefix + Hex.Encode(b))[|prefix|..] == Hex.Encode(b);
    Hex.Injective(a, b);
  }

  /** Every object is under its bucket's prefix. */
  lemma PrefixComesFirst(prefix: string, id: ActionID)
    ensures ObjectKey(prefix, BackendKey(id)) == prefix + Hex.Encode(ToBytes("v2" + Hex.Encode(id)))
    ensures prefix <= ObjectKey(prefix, BackendKey(id))
  {
    assert prefix == "" ==> prefix + Hex.Encode(BackendKey(id)) == Hex.Encode(BackendKey(id));
  }

  /** After its first two bytes a backend key has only hexadecimal digits in it. */
  lemma KeyBytes(id: ActionID, i: nat)
    requires 2 <= i < |BackendKey(id)|
    ensures BackendKey(id)[i] != 'v' as int
  {
    KeyText(id);
    Hex.Encoded(id);
    assert FromBytes(BackendKey(id))[i] == Hex.Encode(id)[i - 2];
    assert Hex.IsHexDigit(Hex.Encode(id)[i - 2]);
  }

  lemma SameDigits(x: byte, y: byte)
    requires "0123456789abcdef"[x / 16] == "0123456789abcdef"[y / 16]
    requires "0123456789abcdef"[x % 16] == "0123456789abcdef"[y % 16]
    ensures x == y
  {
    Hex.DigitOk(x / 16);
    Hex.DigitOk(y / 16);
    Hex.DigitOk(x % 16);
    Hex.DigitOk(y % 16);
    hide Hex.DigitValue;
  }

  lemma KeySize(id: ActionID)
    ensures |BackendKey(id)| == 2 + 2 * |id| && |Hex.Encode(BackendKey(id))| == 4 + 4 * |id|
    ensures BackendKey(id)[0] == 'v' as int
  {
    Hex.Encoded(id);
    KeyText(id);
    Hex.Encoded(BackendKey(id));
    assert FromBytes(BackendKey(id))[0] == 'v';
  }

  /** A backend key cannot end in another one that is shorter. */
  lemma KeyInsideKey(a: ActionID, b: ActionID, d: nat)
    requires d <= |Hex.Encode(BackendKey(a))| && Hex.Encode(BackendKey(a))[d..] == Hex.Encode(BackendKey(b))
    ensures d == 0
  {
    KeySize(a);
    KeySize(b);
    if d > 0 {
      var i := d / 2;
      Hex.EncodedAt(BackendKey(b), 0);
      Hex.EncodedAt(BackendKey(a), i);
      KeyBytes(a, i);
      hide Hex.Encode;
      hide BackendKey;
      var x, y := Hex.Encode(BackendKey(a)), Hex.Encode(BackendKey(b));
      assert d == 2 * i && x[2 * i] == y[0] && x[2 * i + 1] == y[1];
      SameDigits(BackendKey(a)[i], BackendKey(b)[0]);
    }
  }

  lemma NoLongerPrefix(p: string, a: ActionID, q: string, b: ActionID)
    requires |p| <= |q| && ObjectKey(p, BackendKey(a)) == ObjectKey(q, BackendKey(b))
    ensures p == q
  {
    PrefixComesFirst(p, a);
    PrefixComesFirst(q, b);
    var x, y := Hex.Encode(BackendKey(a)), Hex.Encode(BackendKey(b));
    Hex.Encoded(a);
    Hex.Encoded(b);
    Hex.Encoded(BackendKey(a));
    Hex.Encoded(BackendKey(b));
    hide Hex.Encode;
    hide ObjectKey;
    SuffixOf(p, x, q, y);
    KeyInsideKey(a, b, |q| - |p|);
  }

  lemma SuffixOf(p: string, x: string, q: string, y: string)
    requires p + x == q + y && |p| <= |q|
    ensures |q| - |p| <= |x| && x[|q| - |p|..] == y && (|p| == |q| ==> p == q)
  {
    assert |x| == |q| - |p| + |y|;
    assert (p + x)[|q|..] == x[|q| - |p|..] && (q + y)[|q|..] == y;
    assert (p + x)[..|p|] == p && (q + y)[..|q|] == q;
  }

  /**
    Deployments with different prefixes never share an object, even where one prefix is the beginning of the other;
    and within one deployment no two actions do.
   */
  lemma DeploymentsAreApart(p: string, a: ActionID, q: string, b: ActionID)
    ensures ObjectKey(p, BackendKey(a)) == ObjectKey(q, BackendKey(b)) <==> p == q && a == b
  {
    if ObjectKey(p, BackendKey(a)) == ObjectKey(q, BackendKey(b)) {
      if |p| <= |q| {
        NoLongerPrefix(p, a, q, b);
      } else {
        NoLongerPrefix(q, b, p, a);
      }
      ObjectKeyInjective(p, BackendKey(a), BackendKey(b));
      BackendKeyInjective(a, b);
    }
  }

  /** An object as Put writes it: the body, and the record's other fields as text. */
  lemma ObjectIs(outputID: Bytes, body: Bytes, size: int64, now: int64)
    requires Fits(size, body)
    ensures ObjectFor(outputID, Some(body), size, now) == Some(Object(body,
        map["outputid" := Hex.Encode(outputID), "size" := Decimal.Print(size), "time" := Decimal.Print(now)]))
  {
    assert size > 0 ==> body[..size] == body;
  }

  /**
    A Put fails by itself exactly on a short body, and an object that was put is read back as the record it stands
    for.
   */
  lemma PutThenGet(outputID: Bytes, body: Option<Bytes>, bodySize: int64, now: int64)
    ensures ObjectFor(outputID, body, bodySize, now).None? <==> body.Some? && |body.value| < bodySize
    ensures ObjectFor(outputID, body, bodySize, now).Some? ==>
      Decode(ObjectFor(outputID, body, bodySize, now).value)
        == Some(Record(outputID, if bodySize > 0 && body.Some? then body.value[..bodySize] else [], bodySize, now))
  {
    Hex.DecodeEncode(outputID);
    Decimal.ParsePrint(bodySize);
    Decimal.ParsePrint(now);
    hide Hex.Encode;
    hide Hex.Decode;
    hide Decimal.Print;
    hide Decimal.ParseInt;
    assert "outputid" != "size" && "outputid" != "time" && "size" != "time" by {
      assert |"outputid"| == 8 && |"size"| == 4 && "size"[0] != "time"[0];
    }
  }

  /**
    An object is a hit exactly when its size and its time are there and spell numbers, and its output ID is hexadecimal
    or missing; anything else is a miss.
   */
  lemma DecodeIff(o: Object, rec: Record)
    ensures Decode(o) == Some(rec) <==>
      && rec.body == o.body
      && Hex.Decode(if "outputid" in o.metadata then o.metadata["outputid"] else "") == Some(rec.outputID)
      && "size" in o.metadata && Decimal.Spells(o.metadata["size"], rec.size)
      && "time" in o.metadata && Decimal.Spells(o.metadata["time"], rec.time)
  {
    Decimal.ParseIntIff(Field(o.metadata, "size"), rec.size);
    Decimal.ParseIntIff(Field(o.metadata, "time"), rec.time);
    assert Decimal.ParseInt("").None?;
    hide Decimal.ParseInt;
    hide Decimal.Spells;
    hide Hex.Decode;
  }

  /** What the step machine says of a remote put holds of the objects: its own record changes, no other does. */
  lemma PutIsRecord(objects: Objects, prefix: string, id: ActionID, p: Payload, now: int64, other: ActionID)
    requires Fits(p.size, p.body)
    ensures var o := ObjectFor(p.outputID, Some(p.body), p.size, now);
      o.Some? && RemoteAt(objects[ObjectKey(prefix, BackendKey(id)) := o.value], prefix, other) ==
        if other == id then Some(RecordOf(p, now)) else RemoteAt(objects, prefix, other)
  {
    PutThenGet(p.outputID, Some(p.body), p.size, now);
    assert p.size > 0 ==> p.body[..p.size] == p.body;
    if other != id && ObjectKey(prefix, BackendKey(id)) == ObjectKey(prefix, BackendKey(other)) {
      ObjectKeyInjective(prefix, BackendKey(id), BackendKey(other));
      BackendKeyInjective(id, other);
    }
    hide Decode;
    hide ObjectFor;
    hide BackendKey;
    hide ObjectKey;
  }

  /** A call of Put: what it was given, and how it ended. */
  datatype PutCall = PutCall(key: Bytes, outputID: Bytes, body: Option<Bytes>, size: int64, now: int64, stored: bool,
                             ok: bool)

  datatype GetCall = GetCall(key: Bytes, ok: bool)

  /** The bucket of one backend instance. */
  class Bucket {
    const prefix: string
    var objects: Objects
    ghost var puts: seq<PutCall>   // every call of Put so far
    ghost var gets: seq<GetCall>   // every call of Get so far

    constructor (prefix: string, objects: Objects)
      ensures this.prefix == prefix && this.objects == objects && puts == [] && gets == []
    {
      this.prefix := prefix;
      this.objects := objects;
      puts, gets := [], [];
    }

    /**
      A call fails by itself only on a short body; a call that the service fails may have stored the object all the
      same.
     */
    method Put(key: Bytes, outputID: Bytes, body: Option<Bytes>, bodySize: int64, now: int64)
        returns (ok: bool, ghost stored: bool)
      modifies this`objects, this`puts
      ensures puts == old(puts) + [PutCall(key, outputID, body, bodySize, now, stored, ok)]
      ensures ok ==> stored
      ensures stored ==> ObjectFor(outputID, body, bodySize, now).Some?
      ensures stored ==>
        objects == old(objects)[ObjectKey(prefix, key) := ObjectFor(outputID, body, bodySize, now).value]
      ensures !stored ==> objects == old(objects)
    {
      ok, stored := false, false;
      puts := puts + [PutCall(key, outputID, body, bodySize, now, false, false)];
      var bodyData: Bytes := [];
      if bodySize > 0 && body.Some? {
        if |body.value| < bodySize {
          return;
        }
        bodyData := body.value[..bodySize];
      }
      var metadata := map["outputid" := Hex.Encode(outputID), "size" := Decimal.Print(bodySize),
          "time" := Decimal.Print(now)];
      var arrives: bool := *;
      if arrives {
        objects := objects[ObjectKey(prefix, key) := Object(bodyData, metadata)];
        stored, ok := true, *;
      }
      puts := puts[|puts| - 1 := PutCall(key, outputID, body, bodySize, now, stored, ok)];
    }

    /** The record under `key`, with `ok` false when the request itself failed. */
    method Get(key: Bytes) returns (r: Option<Record>, ok: bool)
      modifies this`gets
      ensures gets == old(gets) + [GetCall(key, ok)]
      ensures ok ==> r == RecordUnder(objects, prefix, key)
      ensures !ok ==> r.None?
    {
      ok := *;
      gets := gets + [GetCall(key, ok)];
      if !ok {
        return None, false;
      }
      var k := ObjectKey(prefix, key);
      if k !in objects {
        return None, true;
      }
      var o := objects[k];
      var outputID := Hex.Decode(Field(o.metadata, "outputid"));
      if outputID.None? {
        return None, true;
      }
      var size := Decimal.ParseInt(Field(o.metadata, "size"));
      if size.None? {
        return None, true;
      }
      var time := Decimal.ParseInt(Field(o.metadata, "time"));
      if time.None? {
        return None, true;
      }
      return Some(Record(outputID.value, o.body, size.value, time.value)), true;
    }
  }
}
