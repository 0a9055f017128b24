/** Byte strings, their lines, and the one record a container's output ends with. */
module Wire {
  import opened Usage
  import opened Text
  import opened Json
  import opened JsonText

  /** A byte string, one character for each byte. */
  type Bytes = string

  /** What the run-time library provides: UTF-8 encoding and validity, strict JSON
      decoding, SHA-256, and the number a float's rendering stands for. Of a number in
      the text the decoder knows which renderings are a float's shortest and how many
      digits of an integer it reads, and it follows nesting down to some depth. */
  datatype Codec = Codec(
    encode: string -> Bytes, utf8: Bytes -> bool, loads: Bytes -> Option<Json>, sha256: Bytes -> string,
    value: string -> real, shortest: string -> bool, digits: nat, depth: nat)

  /** Numbers keep the shape a decoder gives them. */
  predicate Numeric(j: Json) {
    match j
    case Float(text) => FloatText(text)
    case Arr(items) => forall i :: 0 <= i < |items| ==> Numeric(items[i])
    case Obj(fields) => forall k :: k in fields ==> Numeric(fields[k])
    case _ => true
  }

  function Magnitude(i: int): nat {
    if i < 0 then -i else i
  }

  /** A value the decoder can come to: floats in their shortest rendering, integers and
      nesting within its limits. */
  predicate Decodable(c: Codec, j: Json, depth: nat) {
    match j
    case Int(i) => |Decimal(Magnitude(i))| <= c.digits
    case Float(text) => FloatText(text) && c.shortest(text)
    case Arr(items) => depth > 0 && forall i :: 0 <= i < |items| ==> Decodable(c, items[i], depth - 1)
    case Obj(fields) => depth > 0 && forall k :: k in fields ==> Decodable(c, fields[k], depth - 1)
    case _ => true
  }

  lemma {:induction false} DecodableIsNumeric(c: Codec, j: Json, depth: nat)
    requires Decodable(c, j, depth)
    ensures Numeric(j)
    decreases j
  {
    if j.Arr? {
      forall i | 0 <= i < |j.items| ensures Numeric(j.items[i]) { DecodableIsNumeric(c, j.items[i], depth - 1); }
    } else if j.Obj? {
      forall k | k in j.fields ensures Numeric(j.fields[k]) { DecodableIsNumeric(c, j.fields[k], depth - 1); }
    }
  }

  /** ASCII text is its own encoding, and encoding loses nothing. */
  ghost predicate Encodes(c: Codec) {
    && (forall t :: Printable(t) ==> c.encode(t) == t)
    && (forall a, b :: c.encode(a) == c.encode(b) ==> a == b)
  }

  /** Decoding the canonical text of a finite value within the decoder's limits gives back
      the value, and what is decoded is within them. The limits leave room for a case
      count and an object in an object. */
  ghost predicate Decodes(c: Codec) {
    && (forall ascii, j :: Proper(j) && Decodable(c, j, c.depth) ==> c.loads(c.encode(Canonical(ascii, j))) == Some(j))
    && (forall b :: c.loads(b).Some? ==> Decodable(c, c.loads(b).value, c.depth))
    && 4 <= c.digits && 2 <= c.depth
  }

  ghost predicate Faithful(c: Codec) {
    Encodes(c) && Decodes(c)
  }

  // ----------------------------------------------------------------------- lines

  /** Splitting at line feeds: there is always a last line, empty when the bytes
      end in one. */
  function SplitLines(b: Bytes): (lines: seq<Bytes>)
    ensures lines != []
  {
    if b == "" then [""]
    else if b[0] == '\n' then [""] + SplitLines(b[1..])
    else
      var rest := SplitLines(b[1..]);
      [[b[0]] + rest[0]] + rest[1..]
  }

  function JoinLines(lines: seq<Bytes>): Bytes {
    if lines == [] then "" else if |lines| == 1 then lines[0] else lines[0] + "\n" + JoinLines(lines[1..])
  }

  predicate OneLine(line: Bytes) {
    forall i :: 0 <= i < |line| ==> line[i] != '\n'
  }

  lemma {:induction false} SplitOneLine(line: Bytes, rest: Bytes)
    requires OneLine(line)
    ensures SplitLines(line) == [line]
    ensures SplitLines(line + "\n" + rest) == [line] + SplitLines(rest)
  {
    if line == "" {
      assert "" + "\n" + rest == "\n" + rest && ("\n" + rest)[1..] == rest;
    } else {
      var tail := line[1..];
      SplitOneLine(tail, rest);
      assert line == [line[0]] + tail;
      var whole := line + "\n" + rest;
      assert whole[0] == line[0] && whole[1..] == tail + "\n" + rest;
      assert ([tail] + SplitLines(rest))[1..] == SplitLines(rest);
    }
  }

  lemma {:induction false} SplitJoinedLines(lines: seq<Bytes>)
    requires lines != [] && forall i :: 0 <= i < |lines| ==> OneLine(lines[i])
    ensures SplitLines(JoinLines(lines)) == lines
  {
    if |lines| == 1 {
      SplitOneLine(lines[0], "");
    } else {
      SplitJoinedLines(lines[1..]);
      SplitOneLine(lines[0], JoinLines(lines[1..]));
      assert lines == [lines[0]] + lines[1..];
    }
  }

  // ---------------------------------------------------------------- final record

  predicate Marked(prefix: string, line: Bytes) {
    prefix <= line
  }

  function MarkedAt(prefix: string, lines: seq<Bytes>): seq<nat> {
    if lines == [] then []
    else MarkedAt(prefix, lines[..|lines| - 1]) + (if Marked(prefix, lines[|lines| - 1]) then [|lines| - 1] else [])
  }

  function Unmarked(prefix: string, lines: seq<Bytes>): seq<Bytes> {
    if lines == [] then []
    else
      Unmarked(prefix, lines[..|lines| - 1])
      + (if Marked(prefix, lines[|lines| - 1]) then [] else [lines[|lines| - 1]])
  }

  lemma {:induction false} MarkedAtFacts(prefix: string, lines: seq<Bytes>)
    ensures forall i: nat :: i in MarkedAt(prefix, lines) <==> i < |lines| && Marked(prefix, lines[i])
  {
    if lines != [] {
      var before := lines[..|lines| - 1];
      MarkedAtFacts(prefix, before);
      forall i: nat ensures i in MarkedAt(prefix, lines) <==> i < |lines| && Marked(prefix, lines[i]) {
        if i < |lines| - 1 { assert lines[i] == before[i]; }
      }
    }
  }

  /** What follows the prefix on its only marked line, when nothing but blank lines
      comes after. */
  function FinalRecord(prefix: string, lines: seq<Bytes>): Option<Bytes> {
    MarkedAtFacts(prefix, lines);
    var marked := MarkedAt(prefix, lines);
    if |marked| != 1 then None
    else
      assert marked[0] in marked;
      if exists j :: marked[0] < j < |lines| && !Blank(lines[j]) then None
      else Some(lines[marked[0]][|prefix|..])
  }

  predicate NoneMarked(prefix: string, lines: seq<Bytes>) {
    forall i :: 0 <= i < |lines| ==> !Marked(prefix, lines[i])
  }

  lemma {:induction false} NoneAreMarked(prefix: string, lines: seq<Bytes>)
    requires NoneMarked(prefix, lines)
    ensures MarkedAt(prefix, lines) == [] && Unmarked(prefix, lines) == lines
  {
    if lines != [] {
      NoneAreMarked(prefix, lines[..|lines| - 1]);
      assert lines == lines[..|lines| - 1] + [lines[|lines| - 1]];
    }
  }

  predicate AllBlank(lines: seq<Bytes>) {
    forall i :: 0 <= i < |lines| ==> Blank(lines[i])
  }

  /** The lines are other output, one marked line with this record, and blank lines. */
  predicate EndsWithRecord(prefix: string, lines: seq<Bytes>, noise: seq<Bytes>, record: Bytes, rest: seq<Bytes>) {
    lines == noise + [prefix + record] + rest && NoneMarked(prefix, noise) && AllBlank(rest)
  }

  lemma BlankIsUnmarked(prefix: string, line: Bytes)
    requires !Blank(prefix) && Blank(line)
    ensures !Marked(prefix, line)
  {}

  lemma {:induction false} OnlyMarked(prefix: string, lines: seq<Bytes>, k: nat)
    requires k < |lines| && forall j: nat {:trigger Marked(prefix, lines[j])} :: j < |lines| ==> (Marked(prefix, lines[j]) <==> j == k)
    ensures MarkedAt(prefix, lines) == [k]
  {
    var before := lines[..|lines| - 1];
    if k == |lines| - 1 {
      forall i | 0 <= i < |before| ensures !Marked(prefix, before[i]) { assert before[i] == lines[i]; }
      NoneAreMarked(prefix, before);
      assert Marked(prefix, lines[k]);
    } else {
      forall j: nat | j < |before| ensures Marked(prefix, before[j]) <==> j == k { assert before[j] == lines[j]; }
      OnlyMarked(prefix, before, k);
      assert !Marked(prefix, lines[|lines| - 1]);
    }
  }

  lemma RecordIsRead(prefix: string, lines: seq<Bytes>, noise: seq<Bytes>, record: Bytes, rest: seq<Bytes>)
    requires !Blank(prefix) && EndsWithRecord(prefix, lines, noise, record, rest)
    ensures FinalRecord(prefix, lines) == Some(record)
  {
    var k := |noise|;
    forall j: nat | j < |lines| ensures Marked(prefix, lines[j]) <==> j == k {
      if j < k {
        assert lines[j] == noise[j];
      } else if j > k {
        assert lines[j] == rest[j - k - 1];
        BlankIsUnmarked(prefix, lines[j]);
      }
    }
    OnlyMarked(prefix, lines, k);
    forall j | k < j < |lines| ensures Blank(lines[j]) { assert lines[j] == rest[j - k - 1]; }
    assert lines[k] == prefix + record;
  }

  lemma ReadIsRecord(prefix: string, lines: seq<Bytes>) returns (noise: seq<Bytes>, rest: seq<Bytes>)
    requires FinalRecord(prefix, lines).Some?
    ensures EndsWithRecord(prefix, lines, noise, FinalRecord(prefix, lines).value, rest)
  {
    MarkedAtFacts(prefix, lines);
    var marked := MarkedAt(prefix, lines);
    var k := marked[0];
    assert k in marked;
    noise, rest := lines[..k], lines[k + 1..];
    forall i | 0 <= i < k ensures !Marked(prefix, noise[i]) {
      assert Marked(prefix, lines[i]) <==> i in marked;
    }
    forall i | 0 <= i < |rest| ensures Blank(rest[i]) { assert rest[i] == lines[k + 1 + i]; }
    var line := lines[k];
    assert Marked(prefix, line) && line == prefix + line[|prefix|..];
    assert lines == noise + [line] + rest;
  }

  /** A record is read off the lines exactly when they are other output, its one marked
      line, and blank lines: two records, or anything behind the record, give none. */
  lemma FinalRecordMeans(prefix: string, lines: seq<Bytes>, record: Bytes)
    requires !Blank(prefix)
    ensures FinalRecord(prefix, lines) == Some(record) <==>
            exists noise, rest :: EndsWithRecord(prefix, lines, noise, record, rest)
  {
    if FinalRecord(prefix, lines) == Some(record) {
      var noise, rest := ReadIsRecord(prefix, lines);
      assert EndsWithRecord(prefix, lines, noise, record, rest);
    }
    if noise, rest :| EndsWithRecord(prefix, lines, noise, record, rest) {
      RecordIsRead(prefix, lines, noise, record, rest);
    }
  }

  /** A record printed after unmarked lines is found, and the other lines are kept. */
  lemma RecordIsFound(prefix: string, noise: seq<Bytes>, record: Bytes)
    requires NoneMarked(prefix, noise) && prefix != ""
    ensures var lines := noise + [prefix + record, ""];
            FinalRecord(prefix, lines) == Some(record) && Unmarked(prefix, lines) == noise + [""]
  {
    var n := |noise|;
    var lines := noise + [prefix + record, ""];
    var before := noise + [prefix + record];
    assert lines[..n + 1] == before && before[..n] == noise;
    NoneAreMarked(prefix, noise);
    assert MarkedAt(prefix, before) == [n] && Unmarked(prefix, before) == noise;
    assert !Marked(prefix, "");
    assert MarkedAt(prefix, lines) == [n];
    assert lines[n][|prefix|..] == record;
    assert Blank("");
  }
}
