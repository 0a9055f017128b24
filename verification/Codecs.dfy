/** That what is taken for granted of encoding and decoding can be had, whatever the
    decoder's limits are. */
module Codecs {
  import opened Usage
  import opened Text
  import opened Json
  import opened JsonText
  import opened Wire

  /** The value the bytes are a canonical text of, in either escaping. */
  ghost function Parsed(limits: Codec, b: Bytes): Option<Json> {
    if ascii, j :| Proper(j) && Decodable(limits, j, limits.depth) && Canonical(ascii, j) == b then Some(j) else None
  }

  /** A codec that reads canonical texts within these limits and nothing else. */
  ghost function CanonicalCodec(limits: Codec): Codec {
    limits.(encode := t => t, loads := b => Parsed(limits, b))
  }

  lemma {:induction false} LimitsDecide(c: Codec, limits: Codec, j: Json, depth: nat)
    requires c.digits == limits.digits && c.shortest == limits.shortest
    ensures Decodable(c, j, depth) <==> Decodable(limits, j, depth)
    decreases j
  {
    if depth > 0 && j.Arr? {
      forall i | 0 <= i < |j.items| ensures Decodable(c, j.items[i], depth - 1) <==> Decodable(limits, j.items[i], depth - 1) {
        LimitsDecide(c, limits, j.items[i], depth - 1);
      }
    } else if depth > 0 && j.Obj? {
      forall k | k in j.fields
        ensures Decodable(c, j.fields[k], depth - 1) <==> Decodable(limits, j.fields[k], depth - 1)
      {
        LimitsDecide(c, limits, j.fields[k], depth - 1);
      }
    }
  }

  lemma CanonicalTextsParse(limits: Codec, ascii: bool, j: Json)
    requires Proper(j) && Decodable(limits, j, limits.depth)
    ensures Parsed(limits, Canonical(ascii, j)) == Some(j)
  {
    var b := Canonical(ascii, j);
    var f, i :| Proper(i) && Decodable(limits, i, limits.depth) && Canonical(f, i) == b && Parsed(limits, b) == Some(i);
    EitherTextDecides(f, ascii, i, j);
  }

  /** For any renderings, any count of digits and any depth that leave the room asked
      for, there is a faithful codec with just these limits. */
  lemma FaithfulCodecsExist(limits: Codec)
    requires 4 <= limits.digits && 2 <= limits.depth
    ensures Faithful(CanonicalCodec(limits))
  {
    var c := CanonicalCodec(limits);
    forall ascii, j | Proper(j) && Decodable(c, j, c.depth) ensures c.loads(c.encode(Canonical(ascii, j))) == Some(j) {
      LimitsDecide(c, limits, j, limits.depth);
      CanonicalTextsParse(limits, ascii, j);
    }
    forall b | c.loads(b).Some? ensures Decodable(c, c.loads(b).value, c.depth) {
      LimitsDecide(c, limits, c.loads(b).value, limits.depth);
    }
  }
}
