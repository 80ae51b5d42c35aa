/**
 * The records of an OpenType 'name' table and the whole-table operations the
 * engine builds on: selecting the records of some name IDs, dropping the
 * records of one name ID, rewriting texts in place, and `update_field`'s
 * remove-then-append-one-canonical-record primitive.
 */
module NameRecords {
  import opened Options

  /**
   * One name record. `text` is the decoded string, or None when the stored
   * bytes do not decode in the record's own encoding (fontTools' `toUnicode`
   * raising).
   */
  datatype NameRecord = NameRecord(
    nameID: nat,
    platformID: nat,
    encodingID: nat,
    languageID: nat,
    text: Option<string>)

  /** The (platform, encoding, language) variant every rewritten field uses:
      Windows, Unicode BMP, US English. */
  const WindowsPlatform: nat := 3
  const UnicodeBmpEncoding: nat := 1
  const EnglishUnitedStates: nat := 0x409

  /** The name IDs that survive processing; every other record is dropped. */
  const AllowedNameIds: set<nat> := {0, 1, 2, 3, 4, 5, 6, 7, 8, 9, 16, 17, 13, 14}

  /** The record `setName(value, id, 3, 1, 0x409)` appends. */
  function Canonical(id: nat, value: string): NameRecord {
    NameRecord(id, WindowsPlatform, UnicodeBmpEncoding, EnglishUnitedStates, Some(value))
  }

  /** The records whose name ID is in `ids`, in their original order. */
  function Only(s: seq<NameRecord>, ids: set<nat>): (r: seq<NameRecord>)
    ensures |r| <= |s|
    ensures forall x :: x in r <==> x in s && x.nameID in ids
  {
    if s == [] then []
    else (if s[0].nameID in ids then [s[0]] else []) + Only(s[1..], ids)
  }

  /** `[r for r in names if r.nameID != id]`. */
  function Without(s: seq<NameRecord>, id: nat): (r: seq<NameRecord>)
    ensures |r| <= |s|
    ensures forall x :: x in r <==> x in s && x.nameID != id
  {
    if s == [] then []
    else (if s[0].nameID != id then [s[0]] else []) + Without(s[1..], id)
  }

  /** What one step of an in-place rewriting loop does to one record. */
  function RetextRecord(r: NameRecord, ids: set<nat>, text: string): NameRecord {
    if r.nameID in ids then r.(text := Some(text)) else r
  }

  /** Every record whose name ID is in `ids` gets `text`, in place. */
  function Retext(s: seq<NameRecord>, ids: set<nat>, text: string): seq<NameRecord> {
    seq(|s|, i requires 0 <= i < |s| => RetextRecord(s[i], ids, text))
  }

  /** Every record of `s` with its text replaced by `text`. */
  function WithText(s: seq<NameRecord>, text: string): seq<NameRecord> {
    if s == [] then [] else [s[0].(text := Some(text))] + WithText(s[1..], text)
  }

  /** The records a field holds after `update_field` writes `value` to it. */
  function CanonicalField(id: nat, value: Option<string>): seq<NameRecord> {
    if Truthy(value) then [Canonical(id, value.value)] else []
  }

  /**
   * `update_field(id, value)`: drop every record with this name ID, then
   * append one canonical record when the value is neither None nor "".
   */
  function Replaced(s: seq<NameRecord>, id: nat, value: Option<string>): (r: seq<NameRecord>)
    ensures forall x :: x in r && x.nameID == id ==> Truthy(value) && x == Canonical(id, value.value)
    ensures Truthy(value) ==> Canonical(id, value.value) in r
    ensures forall x: NameRecord :: x.nameID != id ==> (x in r <==> x in s)
  {
    Without(s, id) + CanonicalField(id, value)
  }

  /** Same length, and record by record the same name ID, platform, encoding and language. */
  predicate SameVariants(s: seq<NameRecord>, t: seq<NameRecord>) {
    && |s| == |t|
    && forall i :: 0 <= i < |s| ==>
         && s[i].nameID == t[i].nameID
         && s[i].platformID == t[i].platformID
         && s[i].encodingID == t[i].encodingID
         && s[i].languageID == t[i].languageID
  }

  /**
   * The text of the last record with this name ID that decodes: what a
   * forward loop keeps when it overwrites its variable on every hit.
   */
  function LastDecoded(s: seq<NameRecord>, id: nat): Option<string>
    decreases |s|
  {
    if s == [] then None
    else if s[|s| - 1].nameID == id && s[|s| - 1].text.Some? then s[|s| - 1].text
    else LastDecoded(s[..|s| - 1], id)
  }

  /**
   * `LastDecoded` finds a decodable record of the name ID exactly when there
   * is one, and then the text of the last such record.
   */
  lemma {:induction false} LastDecodedFindsLast(s: seq<NameRecord>, id: nat)
    ensures LastDecoded(s, id).Some? <==> exists i :: 0 <= i < |s| && s[i].nameID == id && s[i].text.Some?
    ensures LastDecoded(s, id).Some? ==>
              exists i :: 0 <= i < |s| && s[i].nameID == id && s[i].text == LastDecoded(s, id) &&
                          forall j :: i < j < |s| ==> !(s[j].nameID == id && s[j].text.Some?)
    decreases |s|
  {
    if s != [] {
      var n := |s| - 1;
      if !(s[n].nameID == id && s[n].text.Some?) {
        var p := s[..n];
        LastDecodedFindsLast(p, id);
        assert forall i :: 0 <= i < |p| ==> p[i] == s[i];
        if LastDecoded(p, id).Some? {
          var i :| 0 <= i < |p| && p[i].nameID == id && p[i].text == LastDecoded(p, id) &&
                   forall j :: i < j < |p| ==> !(p[j].nameID == id && p[j].text.Some?);
          assert s[i] == p[i];
        }
      }
    }
  }

  // ---------------------------------------------------------------------------
  // Per-field reasoning: how each whole-table operation looks from one name ID.

  lemma {:induction false} OnlyAppend(s: seq<NameRecord>, t: seq<NameRecord>, ids: set<nat>)
    ensures Only(s + t, ids) == Only(s, ids) + Only(t, ids)
  {
    if s == [] {
      assert s + t == t;
    } else {
      assert (s + t)[0] == s[0];
      assert (s + t)[1..] == s[1..] + t;
      OnlyAppend(s[1..], t, ids);
    }
  }

  lemma {:induction false} OnlyEmptySet(s: seq<NameRecord>)
    ensures Only(s, {}) == []
  {
    if s != [] {
      OnlyEmptySet(s[1..]);
    }
  }

  lemma {:induction false} OnlyOnly(s: seq<NameRecord>, a: set<nat>, b: set<nat>)
    ensures Only(Only(s, a), b) == Only(s, a * b)
  {
    if s != [] {
      OnlyOnly(s[1..], a, b);
      var head := if s[0].nameID in a then [s[0]] else [];
      OnlyAppend(head, Only(s[1..], a), b);
      if s[0].nameID in a {
        assert head[1..] == [];
      }
    }
  }

  /** Dropping one name ID is invisible from every other name ID. */
  lemma {:induction false} OnlyWithout(s: seq<NameRecord>, id: nat, ids: set<nat>)
    ensures Only(Without(s, id), ids) == Only(s, ids - {id})
  {
    if s != [] {
      OnlyWithout(s[1..], id, ids);
      var head := if s[0].nameID != id then [s[0]] else [];
      OnlyAppend(head, Without(s[1..], id), ids);
      if s[0].nameID != id {
        assert head[1..] == [];
      }
    }
  }

  lemma {:induction false} OnlyCanonicalField(id: nat, value: Option<string>, k: nat)
    ensures Only(CanonicalField(id, value), {k}) == if k == id then CanonicalField(id, value) else []
  {
    if Truthy(value) {
      assert CanonicalField(id, value)[1..] == [];
    }
  }

  /**
   * `update_field` seen from one name ID: the rewritten field holds nothing
   * (None or "") or exactly the one canonical record; every other field keeps
   * its records, their contents and their order.
   */
  lemma OnlyReplaced(s: seq<NameRecord>, id: nat, value: Option<string>, k: nat)
    ensures Only(Replaced(s, id, value), {k}) == if k == id then CanonicalField(id, value) else Only(s, {k})
  {
    OnlyAppend(Without(s, id), CanonicalField(id, value), {k});
    OnlyWithout(s, id, {k});
    OnlyCanonicalField(id, value, k);
    if k == id {
      assert {k} - {id} == {};
      OnlyEmptySet(s);
    } else {
      assert {k} - {id} == {k};
    }
  }

  /**
   * `update_field` leaves the records of all other name IDs as they were, in
   * the same relative order.
   */
  lemma ReplacedKeepsOthers(s: seq<NameRecord>, id: nat, value: Option<string>)
    ensures Without(Replaced(s, id, value), id) == Without(s, id)
  {
    WithoutIdempotent(s, id);
    WithoutAppend(Without(s, id), CanonicalField(id, value), id);
  }

  lemma {:induction false} WithoutAppend(s: seq<NameRecord>, t: seq<NameRecord>, id: nat)
    requires forall x :: x in t ==> x.nameID == id
    ensures Without(s + t, id) == Without(s, id)
  {
    if s == [] {
      WithoutAll(t, id);
      assert s + t == t;
    } else {
      assert (s + t)[0] == s[0];
      assert (s + t)[1..] == s[1..] + t;
      WithoutAppend(s[1..], t, id);
    }
  }

  lemma {:induction false} WithoutAll(t: seq<NameRecord>, id: nat)
    requires forall x :: x in t ==> x.nameID == id
    ensures Without(t, id) == []
  {
    if t != [] {
      assert t[0] in t;
      assert forall x :: x in t[1..] ==> x in t;
      WithoutAll(t[1..], id);
    }
  }

  lemma {:induction false} WithoutIdempotent(s: seq<NameRecord>, id: nat)
    ensures Without(Without(s, id), id) == Without(s, id)
  {
    if s != [] {
      WithoutIdempotent(s[1..], id);
      var rest := Without(s[1..], id);
      if s[0].nameID != id {
        assert Without(s, id) == [s[0]] + rest;
        assert ([s[0]] + rest)[0] == s[0];
        assert ([s[0]] + rest)[1..] == rest;
      } else {
        assert Without(s, id) == [] + rest == rest;
      }
    }
  }

  /** Rewriting texts in place, seen from one name ID. */
  lemma {:induction false} OnlyRetext(s: seq<NameRecord>, ids: set<nat>, text: string, k: nat)
    ensures Only(Retext(s, ids, text), {k}) == if k in ids then WithText(Only(s, {k}), text) else Only(s, {k})
  {
    if s != [] {
      var r := Retext(s, ids, text);
      var r0 := RetextRecord(s[0], ids, text);
      var o := Only(s[1..], {k});
      assert r == [r0] + Retext(s[1..], ids, text);
      assert r[0] == r0 && r[1..] == Retext(s[1..], ids, text);
      OnlyRetext(s[1..], ids, text, k);
      if s[0].nameID != k {
        assert Only(s, {k}) == o;
        assert Only(r, {k}) == Only(Retext(s[1..], ids, text), {k});
      } else if k in ids {
        assert Only(s, {k}) == [s[0]] + o;
        assert ([s[0]] + o)[0] == s[0] && ([s[0]] + o)[1..] == o;
        assert WithText(Only(s, {k}), text) == [r0] + WithText(o, text);
      } else {
        assert r0 == s[0];
        assert Only(s, {k}) == [s[0]] + o;
      }
    }
  }

  /**
   * Rewriting a field's texts keeps every record's place and variant, gives
   * each the new text, and neither adds nor removes a record.
   */
  lemma {:induction false} WithTextVariants(s: seq<NameRecord>, text: string)
    ensures SameVariants(WithText(s, text), s)
    ensures forall x :: x in WithText(s, text) ==> x.text == Some(text)
  {
    if s != [] {
      WithTextVariants(s[1..], text);
    }
  }

  lemma {:induction false} WithTextIdempotent(s: seq<NameRecord>, text: string)
    ensures WithText(WithText(s, text), text) == WithText(s, text)
  {
    if s != [] {
      var w := WithText(s, text);
      assert w[1..] == WithText(s[1..], text);
      WithTextIdempotent(s[1..], text);
    }
  }

  /** The snapshot of a name ID only looks at that name ID's records. */
  lemma {:induction false} LastDecodedOnly(s: seq<NameRecord>, k: nat)
    ensures LastDecoded(s, k) == LastDecoded(Only(s, {k}), k)
    decreases |s|
  {
    if s != [] {
      var p, last := s[..|s| - 1], s[|s| - 1];
      assert s == p + [last];
      LastDecodedOnly(p, k);
      var o := Only(p, {k});
      var tail := Only([last], {k});
      assert tail == if last.nameID == k then [last] else [] by {
        assert [last][1..] == [];
      }
      OnlyAppend(p, [last], {k});
      assert Only(s, {k}) == o + tail;
      if last.nameID == k {
        var q := o + [last];
        assert q[|q| - 1] == last && q[..|q| - 1] == o;
        if last.text.Some? {
          assert LastDecoded(q, k) == last.text;
        } else {
          assert LastDecoded(q, k) == LastDecoded(o, k);
        }
      } else {
        assert o + [] == o;
        assert LastDecoded(s, k) == LastDecoded(p, k);
      }
    }
  }

  lemma LastDecodedSingle(id: nat, value: string)
    ensures LastDecoded([Canonical(id, value)], id) == Some(value)
  {
  }
}
