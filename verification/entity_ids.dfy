/** The unique ids entities register under: f"{system_id}_{kind}_{key}", where the kind
    is `sensor`, `param`, `output` or `binary`. */
module EntityIds {
  import opened PyJson

  function UniqueId(systemId: Json, kind: string, key: Json): seq<Piece> {
    [Value(systemId), Text("_" + kind + "_"), Value(key)]
  }

  predicate NoUnderscore(s: string) {
    forall i :: 0 <= i < |s| ==> s[i] != '_'
  }

  /** The text of a unique id is the system id's text, the kind between underscores,
      and the key's text; it has one when both values have one. */
  lemma RenderUniqueId(systemId: Json, kind: string, key: Json)
    ensures Render(UniqueId(systemId, kind, key)) ==
      if Str(systemId).Some? && Str(key).Some?
      then Some(Str(systemId).value + ("_" + kind + "_") + Str(key).value)
      else None
  {
    var f := UniqueId(systemId, kind, key);
    assert f[1..] == [Text("_" + kind + "_"), Value(key)];
    assert f[1..][1..] == [Value(key)];
    assert f[1..][1..][1..] == [];
    assert Render(f[1..][1..][1..]) == Some("");
    assert f[0] == Value(systemId) && f[2] == Value(key);
    if Str(key).Some? {
      var t := Str(key).value;
      assert t + "" == t;
      assert Render(f[1..][1..]) == Some(t);
      assert Render(f[1..]) == Some(("_" + kind + "_") + t);
      if Str(systemId).Some? {
        var v := Str(systemId).value;
        assert v + (("_" + kind + "_") + t) == v + ("_" + kind + "_") + t;
      }
    }
  }

  lemma DecimalNoUnderscore(n: int)
    ensures NoUnderscore(Decimal(n))
  {
    var s := Natural(if n < 0 then -n else n);
    if n < 0 {
      assert Decimal(n) == "-" + s;
      assert forall i :: 1 <= i < |Decimal(n)| ==> Decimal(n)[i] == s[i - 1];
    }
  }

  /** Splitting at the first underscore: when neither head contains one, the heads
      and the tails agree. */
  lemma SplitAtSeparator(a: string, b: string, c: string, d: string)
    requires NoUnderscore(a) && NoUnderscore(c)
    requires a + "_" + b == c + "_" + d
    ensures a == c && b == d
  {
    var s := a + "_" + b;
    assert s[|a|] == '_';
    assert forall i :: 0 <= i < |a| ==> s[i] == a[i];
    assert s[|c|] == '_';
    assert forall i :: 0 <= i < |c| ==> s[i] == c[i];
    assert |a| == |c|;
    assert a == s[..|a|] == c;
    assert b == s[|a| + 1..] == d;
  }

  lemma Regroup(v: string, kind: string, t: string)
    ensures v + ("_" + kind + "_") + t == v + "_" + (kind + "_" + t)
  {
  }

  /** A text of the form v_kind_t, with no underscore in v or in kind, gives back v, kind
      and t. */
  lemma {:induction false} IdTextDeterminesParts(v1: string, k1: string, t1: string, v2: string, k2: string, t2: string)
    requires NoUnderscore(v1) && NoUnderscore(k1) && NoUnderscore(v2) && NoUnderscore(k2)
    requires v1 + ("_" + k1 + "_") + t1 == v2 + ("_" + k2 + "_") + t2
    ensures v1 == v2 && k1 == k2 && t1 == t2
  {
    Regroup(v1, k1, t1);
    Regroup(v2, k2, t2);
    SplitAtSeparator(v1, k1 + "_" + t1, v2, k2 + "_" + t2);
    SplitAtSeparator(k1, t1, k2, t2);
  }

  /** For integer system ids, the text of a unique id determines the system, the kind
      and the key's text: entities of different systems or different kinds never share
      an id. */
  lemma UniqueIdDeterminesParts(s1: int, k1: string, x1: Json, s2: int, k2: string, x2: Json)
    requires NoUnderscore(k1) && NoUnderscore(k2)
    requires Render(UniqueId(JInt(s1), k1, x1)).Some?
    requires Render(UniqueId(JInt(s1), k1, x1)) == Render(UniqueId(JInt(s2), k2, x2))
    ensures s1 == s2 && k1 == k2 && Str(x1) == Str(x2)
  {
    RenderUniqueId(JInt(s1), k1, x1);
    RenderUniqueId(JInt(s2), k2, x2);
    DecimalNoUnderscore(s1);
    DecimalNoUnderscore(s2);
    IdTextDeterminesParts(Decimal(s1), k1, Str(x1).value, Decimal(s2), k2, Str(x2).value);
    DecimalInjective(s1, s2);
  }

  /** Within one kind and one integer system, distinct integer keys give distinct ids. */
  lemma IntKeysGiveDistinctIds(s: int, kind: string, i1: int, i2: int)
    requires NoUnderscore(kind)
    requires i1 != i2
    ensures Render(UniqueId(JInt(s), kind, JInt(i1))) != Render(UniqueId(JInt(s), kind, JInt(i2)))
  {
    RenderUniqueId(JInt(s), kind, JInt(i1));
    if Render(UniqueId(JInt(s), kind, JInt(i1))) == Render(UniqueId(JInt(s), kind, JInt(i2))) {
      UniqueIdDeterminesParts(s, kind, JInt(i1), s, kind, JInt(i2));
      DecimalInjective(i1, i2);
    }
  }
}
