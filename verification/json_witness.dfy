/** The one law that the model asks of JSON text can be met: a concrete way of printing
    objects and reading them back. */
module JsonWitness {
  import opened Options
  import opened Text
  import opened Payloads

  type Code = x: int | 0 <= x < 0x11_0000

  /** A number as three code units, none of them 0. */
  function Cells(n: Code): JsString { [n / 0x1_0000 + 1, n / 0x100 % 0x100 + 1, n % 0x100 + 1] }

  function Spell(ns: seq<Code>): JsString { if ns == [] then [0] else Cells(ns[0]) + Spell(ns[1..]) }

  lemma CellsUnique(a: Code, b: Code)
    requires Cells(a) == Cells(b)
    ensures a == b
  {
    assert Cells(a)[0] == Cells(b)[0] && Cells(a)[1] == Cells(b)[1] && Cells(a)[2] == Cells(b)[2];
    assert a == a / 0x1_0000 * 0x1_0000 + a / 0x100 % 0x100 * 0x100 + a % 0x100;
  }

  /** A spelled sequence followed by anything is read in one way. */
  lemma {:induction false} SpellUnique(a: seq<Code>, x: JsString, b: seq<Code>, y: JsString)
    requires Spell(a) + x == Spell(b) + y
    ensures a == b && x == y
  {
    var s, t := Spell(a) + x, Spell(b) + y;
    if a == [] || b == [] {
      assert s[0] == t[0];
      assert x == s[1..] && y == t[1..];
    } else {
      assert s == Cells(a[0]) + (Spell(a[1..]) + x) && t == Cells(b[0]) + (Spell(b[1..]) + y);
      assert Cells(a[0]) == s[..3] && Cells(b[0]) == t[..3];
      assert Spell(a[1..]) + x == s[3..] && Spell(b[1..]) + y == t[3..];
      CellsUnique(a[0], b[0]);
      SpellUnique(a[1..], x, b[1..], y);
      assert a == [a[0]] + a[1..] && b == [b[0]] + b[1..];
    }
  }

  function Codes(k: string): seq<Code> { seq(|k|, i requires 0 <= i < |k| => k[i] as int) }

  lemma CodesUnique(k: string, l: string)
    requires Codes(k) == Codes(l)
    ensures k == l
  {
    forall i | 0 <= i < |k| ensures k[i] == l[i] {
      assert Codes(k)[i] == Codes(l)[i];
    }
  }

  function Tag(v: JsonValue): CodeUnit
  {
    match v
    case JString(_) => 1
    case JNumber(n) => if n == 1 then 2 else 3
    case JTrue => 4
    case JOther => 5
  }

  function ValueText(v: JsonValue): JsString { [Tag(v)] + (if v.JString? then Spell(v.s) else []) }

  predicate SimpleValue(v: JsonValue) { v.JString? || v == JNumber(1) || v == JNumber(2) || v.JTrue? }

  lemma TagFirst(v: JsonValue, x: JsString)
    ensures var s := ValueText(v) + x;
            s[0] == Tag(v) && s[1..] == (if v.JString? then Spell(v.s) + x else x)
  {
    hide Spell;
  }

  lemma ValueUnique(v: JsonValue, x: JsString, u: JsonValue, y: JsString)
    requires SimpleValue(v) && SimpleValue(u) && ValueText(v) + x == ValueText(u) + y
    ensures v == u && x == y
  {
    hide ValueText, Spell;
    TagFirst(v, x);
    TagFirst(u, y);
    if v.JString? { SpellUnique(v.s, x, u.s, y); }
  }

  ghost function FirstKey(o: JsonObject): (k: string)
    requires o != map[]
    ensures k in o
  {
    assert o.Keys != {};
    var k :| k in o;
    k
  }

  ghost function Entries(o: JsonObject): JsString
    decreases |o.Keys|
  {
    if o == map[] then []
    else
      var k := FirstKey(o);
      assert (o - {k}).Keys == o.Keys - {k};
      Spell(Codes(k)) + (ValueText(o[k]) + Entries(o - {k}))
  }

  lemma {:induction false} EntriesUnique(o: JsonObject, p: JsonObject)
    requires Simple(o) && Simple(p) && Entries(o) == Entries(p)
    ensures o == p
    decreases |o.Keys|
  {
    hide Spell;
    if o != map[] && p != map[] {
      var k, l := FirstKey(o), FirstKey(p);
      var x, y := ValueText(o[k]) + Entries(o - {k}), ValueText(p[l]) + Entries(p - {l});
      SpellUnique(Codes(k), x, Codes(l), y);
      CodesUnique(k, l);
      ValueUnique(o[k], Entries(o - {k}), p[k], Entries(p - {k}));
      assert (o - {k}).Keys == o.Keys - {k};
      EntriesUnique(o - {k}, p - {k});
      assert o == (o - {k})[k := o[k]] && p == (p - {k})[k := p[k]];
    } else {
      SpellNotEmpty(o);
      SpellNotEmpty(p);
    }
  }

  lemma SpellNotEmpty(o: JsonObject)
    ensures o != map[] ==> Entries(o) != []
  {
    if o != map[] { assert Spell(Codes(FirstKey(o))) != []; }
  }

  predicate NoSurrogates(s: JsString) { forall i | 0 <= i < |s| :: s[i] < 0xD800 }

  lemma {:induction false} PlainTextWellFormed(s: JsString)
    requires NoSurrogates(s)
    ensures WellFormed(s)
  {
    if s != [] {
      PlainTextWellFormed(s[1..]);
      assert FirstScalar(s) == (s[0], 1);
      assert s == [s[0]] + s[1..];
    }
  }

  lemma {:induction false} SpellPlain(ns: seq<Code>)
    ensures NoSurrogates(Spell(ns))
  {
    if ns != [] { SpellPlain(ns[1..]); }
  }

  lemma {:induction false} EntriesPlain(o: JsonObject)
    ensures NoSurrogates(Entries(o))
    decreases |o.Keys|
  {
    if o != map[] {
      var k := FirstKey(o);
      assert (o - {k}).Keys == o.Keys - {k};
      EntriesPlain(o - {k});
      SpellPlain(Codes(k));
      if o[k].JString? { SpellPlain(o[k].s); }
    }
  }

  ghost function Print(o: JsonObject): JsString { [OPEN_BRACE] + Entries(o) }

  ghost predicate Prints(o: JsonObject, s: JsString) { Simple(o) && Print(o) == s }

  ghost function Read(s: JsString): Option<JsonText>
  {
    if exists o: JsonObject :: Prints(o, s)
    then var o: JsonObject :| Prints(o, s); Some(JObject(o)) else None
  }

  /** Some JSON is lawful: what is proved about lawful JSON is not proved about nothing. */
  lemma LawfulJsonExists()
    ensures exists json :: Lawful(json)
  {
    var json := Json(o => Print(o), s => Read(s));
    forall o: JsonObject | Simple(o)
      ensures var s := json.stringify(o);
              json.parse(s) == Some(JObject(o)) && WellFormed(s) && s != [] && s[0] == OPEN_BRACE
    {
      var s := Print(o);
      assert Prints(o, s);
      forall p: JsonObject | Prints(p, s) ensures p == o {
        assert Entries(p) == Print(p)[1..] && Entries(o) == Print(o)[1..];
        EntriesUnique(o, p);
      }
      EntriesPlain(o);
      PlainTextWellFormed(s);
    }
    assert Lawful(json);
  }
}
