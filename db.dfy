/**
 * The clause and parameter lists `updateClothing` builds before it issues
 * `UPDATE clothings SET <clauses>, updated_at = NOW() WHERE id = $<n>`.
 */
module Db {
  import opened Wrappers
  import opened Text
  import Seqs

  /** `key.replace(/([A-Z])/g, '_$1')`: an underscore before every upper-case letter. */
  function UnderscoreBeforeUpper(key: string): (r: string)
    ensures |r| == |key| + Seqs.Count(key, IsAsciiUpper)
  {
    if key == [] then []
    else (if IsAsciiUpper(key[0]) then ['_', key[0]] else [key[0]]) + UnderscoreBeforeUpper(key[1..])
  }

  /** The column name for a record key: camelCase to snake_case (`imageUrl` to `image_url`). */
  function SnakeKey(key: string): (r: string)
    ensures |r| == |key| + Seqs.Count(key, IsAsciiUpper)
    ensures HasNoUpper(r)
  {
    Lower(UnderscoreBeforeUpper(key))
  }

  /** `SnakeKey` one character at a time. */
  lemma SnakeKeyCons(key: string)
    requires key != []
    ensures SnakeKey(key) == (if IsAsciiUpper(key[0]) then ['_', LowerChar(key[0])] else [key[0]]) + SnakeKey(key[1..])
  {
    var head := if IsAsciiUpper(key[0]) then ['_', key[0]] else [key[0]];
    LowerAppend(head, UnderscoreBeforeUpper(key[1..]));
  }

  /** A key without upper-case letters is already its column name. */
  lemma {:induction false} SnakeKeyOfLowerKey(key: string)
    requires HasNoUpper(key)
    ensures SnakeKey(key) == key
  {
    if key != [] {
      SnakeKeyCons(key);
      SnakeKeyOfLowerKey(key[1..]);
      assert key == [key[0]] + key[1..];
    }
  }

  lemma {:induction false} UnderscoreBeforeUpperAppend(a: string, b: string)
    ensures UnderscoreBeforeUpper(a + b) == UnderscoreBeforeUpper(a) + UnderscoreBeforeUpper(b)
  {
    if a != [] {
      var head := if IsAsciiUpper(a[0]) then ['_', a[0]] else [a[0]];
      assert (a + b)[0] == a[0];
      assert (a + b)[1..] == a[1..] + b;
      UnderscoreBeforeUpperAppend(a[1..], b);
      assert UnderscoreBeforeUpper(a + b) == head + UnderscoreBeforeUpper(a[1..] + b);
      assert UnderscoreBeforeUpper(a) == head + UnderscoreBeforeUpper(a[1..]);
      assert head + (UnderscoreBeforeUpper(a[1..]) + UnderscoreBeforeUpper(b))
        == (head + UnderscoreBeforeUpper(a[1..])) + UnderscoreBeforeUpper(b);
    } else {
      assert a + b == b;
    }
  }

  /** The conversion works on each part of a key separately. */
  lemma SnakeKeyAppend(a: string, b: string)
    ensures SnakeKey(a + b) == SnakeKey(a) + SnakeKey(b)
  {
    UnderscoreBeforeUpperAppend(a, b);
    LowerAppend(UnderscoreBeforeUpper(a), UnderscoreBeforeUpper(b));
  }

  /** The record key `imageUrl` is stored in the column `image_url`. */
  lemma ImageUrlColumn()
    ensures SnakeKey("imageUrl") == "image_url"
  {
    var head, tail := "image", "Url";
    assert "imageUrl" == head + tail;
    SnakeKeyAppend(head, tail);
    LowerWordColumn(head);
    UrlColumn();
    assert "image" + "_url" == "image_url";
  }

  lemma LowerWordColumn(w: string)
    requires w == "image" || w == "rl"
    ensures SnakeKey(w) == w
  {
    assert HasNoUpper(w);
    SnakeKeyOfLowerKey(w);
  }

  lemma UrlColumn()
    ensures SnakeKey("Url") == "_url"
  {
    var tail := "Url";
    SnakeKeyCons(tail);
    assert tail[1..] == "rl";
    LowerWordColumn("rl");
    assert LowerChar('U') == 'u';
    assert ['_', 'u'] + "rl" == "_url";
  }

  /** snake_case back to camelCase: `_x` becomes `X`. */
  function CamelKey(column: string): (r: string)
    decreases |column|
  {
    if column == [] then []
    else if |column| >= 2 && column[0] == '_' && IsAsciiLower(column[1]) then
      [UpperChar(column[1])] + CamelKey(column[2..])
    else [column[0]] + CamelKey(column[1..])
  }

  /** A key without underscores is recovered from its column name, so distinct keys give distinct columns. */
  lemma {:induction false} CamelKeyOfSnakeKey(key: string)
    requires forall i :: 0 <= i < |key| ==> key[i] != '_'
    ensures CamelKey(SnakeKey(key)) == key
  {
    if key != [] {
      SnakeKeyCons(key);
      CamelKeyOfSnakeKey(key[1..]);
      var rest := SnakeKey(key[1..]);
      if IsAsciiUpper(key[0]) {
        assert (['_', LowerChar(key[0])] + rest)[2..] == rest;
      } else {
        assert ([key[0]] + rest)[1..] == rest;
      }
      assert key == [key[0]] + key[1..];
    }
  }

  /** A value of a partial clothing record, as `Object.entries` yields it. */
  datatype FieldValue = Undefined | Null | Text(s: string)

  datatype Entry = Entry(key: string, value: FieldValue)

  /** The clauses, the parameters and the number of the `WHERE id` placeholder. */
  datatype UpdateStatement = UpdateStatement(sets: seq<string>, values: seq<FieldValue>, idPlaceholder: nat)

  /** An entry becomes a clause unless it is the id or its value is `undefined`; `null` still does. */
  predicate Contributes(e: Entry)
  {
    e.key != "id" && !e.value.Undefined?
  }

  /** The entries that become clauses, in record order. */
  function Kept(updates: seq<Entry>): seq<Entry>
  {
    Seqs.Filter(updates, Contributes)
  }

  /** `${dbKey} = $${n}`. */
  function Clause(key: string, n: nat): string
  {
    SnakeKey(key) + " = $" + NatToString(n)
  }

  /** One more entry adds itself to the kept entries exactly when it contributes. */
  lemma KeptStep(updates: seq<Entry>, i: nat)
    requires i < |updates|
    ensures Kept(updates[..i + 1]) == Kept(updates[..i]) + (if Contributes(updates[i]) then [updates[i]] else [])
  {
    assert updates[..i + 1] == updates[..i] + [updates[i]];
    Seqs.FilterAppend(updates[..i], [updates[i]], Contributes);
  }

  /**
   * `updateClothing` up to the query: `None` when no entry contributes (the
   * function returns null and issues nothing); otherwise clause j is the
   * j-th contributing entry's column with placeholder j + 1, its value is
   * parameter j, and the id is the last parameter, numbered like the WHERE
   * placeholder.
   */
  method UpdateClothingStatement(id: string, updates: seq<Entry>) returns (r: Option<UpdateStatement>)
    ensures r.None? <==> forall i :: 0 <= i < |updates| ==> !Contributes(updates[i])
    ensures r.Some? ==>
      var kept := Kept(updates);
      && |r.value.sets| == |kept|
      && |r.value.values| == |kept| + 1
      && (forall j :: 0 <= j < |kept| ==> r.value.sets[j] == Clause(kept[j].key, j + 1))
      && (forall j :: 0 <= j < |kept| ==> r.value.values[j] == kept[j].value)
      && r.value.values[|kept|] == Text(id)
      && r.value.idPlaceholder == |r.value.values|
  {
    var sets: seq<string> := [];
    var values: seq<FieldValue> := [];
    var paramCount: nat := 1;
    var i := 0;
    while i < |updates|
      invariant 0 <= i <= |updates|
      invariant |sets| == |values| == |Kept(updates[..i])|
      invariant paramCount == |sets| + 1
      invariant forall j :: 0 <= j < |sets| ==> sets[j] == Clause(Kept(updates[..i])[j].key, j + 1)
      invariant forall j :: 0 <= j < |values| ==> values[j] == Kept(updates[..i])[j].value
    {
      var e := updates[i];
      KeptStep(updates, i);
      if e.key != "id" && e.value != Undefined {
        var dbKey := SnakeKey(e.key);
        sets := sets + [dbKey + " = $" + NatToString(paramCount)];
        values := values + [e.value];
        paramCount := paramCount + 1;
      }
      i := i + 1;
    }
    assert updates[..i] == updates;
    NoneKeptIffNoneContributes(updates);
    if |sets| == 0 {
      return None;
    }
    values := values + [Text(id)];
    r := Some(UpdateStatement(sets, values, paramCount));
  }

  lemma NoneKeptIffNoneContributes(updates: seq<Entry>)
    ensures Kept(updates) == [] <==> forall i :: 0 <= i < |updates| ==> !Contributes(updates[i])
  {
    var kept := Kept(updates);
    Seqs.FilterMembership(updates, Contributes);
    if kept != [] {
      assert kept[0] in updates && Contributes(kept[0]);
      var i :| 0 <= i < |updates| && updates[i] == kept[0];
    }
  }

  /** Every placeholder number can be read back from its clause, so the numbering is unambiguous. */
  lemma ClausePlaceholder(key: string, n: nat)
    ensures var c := Clause(key, n);
      var k := |SnakeKey(key)| + 4;
      k <= |c| && c[..k] == SnakeKey(key) + " = $" && ParseNat(c[k..]) == Some(n)
  {
    var c := Clause(key, n);
    var k := |SnakeKey(key)| + 4;
    assert c[k..] == NatToString(n);
    assert c[..k] == SnakeKey(key) + " = $";
    ParseNatToString(n);
  }
}
