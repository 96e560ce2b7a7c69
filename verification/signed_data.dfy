/** The byte strings that identity-v2 signatures cover, and why each can be read
    in one way only. */
module SignedData {
  import opened Text
  import opened Base64Url

  const BAR: CodeUnit := '|' as int
  const COLON: CodeUnit := ':' as int

  // ---- decimal numbers ----

  /** A natural number as a template literal prints it. */
  function Decimal(n: nat): (r: JsString)
  {
    if n < 10 then [0x30 + n] else Decimal(n / 10) + [0x30 + n % 10]
  }

  predicate AllDigits(s: JsString) { forall i | 0 <= i < |s| :: 0x30 <= s[i] < 0x3A }

  lemma {:induction false} DecimalDigits(n: nat)
    ensures Decimal(n) != [] && AllDigits(Decimal(n))
  {
    if n >= 10 { DecimalDigits(n / 10); }
  }

  lemma {:induction false} DecimalInjective(m: nat, n: nat)
    requires Decimal(m) == Decimal(n)
    ensures m == n
  {
    DecimalDigits(m / 10);
    DecimalDigits(n / 10);
    var s := Decimal(m);
    if m >= 10 && n >= 10 {
      assert Decimal(m / 10) == s[..|s| - 1] == Decimal(n / 10);
      DecimalInjective(m / 10, n / 10);
      assert s[|s| - 1] == 0x30 + m % 10 == 0x30 + n % 10;
    } else {
      assert m < 10 ==> |s| == 1;
      assert n < 10 ==> |s| == 1;
    }
  }

  /** The number a digit string names, the most significant digit first. */
  function NumberOf(s: JsString): nat
    requires AllDigits(s)
  {
    if s == [] then 0 else 10 * NumberOf(s[..|s| - 1]) + (s[|s| - 1] - 0x30)
  }

  /** A printed number names itself and has no leading zero. */
  lemma {:induction false} DecimalNames(n: nat)
    ensures AllDigits(Decimal(n)) && NumberOf(Decimal(n)) == n
    ensures Decimal(n)[0] == 0x30 ==> n == 0
  {
    DecimalDigits(n);
    var s := Decimal(n);
    if n >= 10 {
      DecimalDigits(n / 10);
      DecimalNames(n / 10);
      assert s[..|s| - 1] == Decimal(n / 10) && s[|s| - 1] == 0x30 + n % 10;
      assert s[0] == Decimal(n / 10)[0];
    } else {
      assert s[..0] == [];
    }
  }

  // ---- the signed strings ----

  /** A variable field behind its length in UTF-8 bytes. */
  function Frame(field: JsString): JsString
  {
    Decimal(|TextEncode(field)|) + ([COLON] + field)
  }

  function MessageTag(): JsString { Ascii("identity-v2|msg|") }

  function NickTag(): JsString { Ascii("identity-v2|nick|") }

  function MessageSigData(channelId: JsString, messageId: JsString, nick: JsString, text: JsString): JsString
  {
    MessageTag() + (channelId + ([BAR] + (messageId + ([BAR] + (Frame(nick) + ([BAR] + Frame(text)))))))
  }

  function NickSigData(channelId: JsString, nick: JsString): JsString
  {
    NickTag() + (channelId + ([BAR] + Frame(nick)))
  }

  /** The identity-v1 form of the two variable fields: a bare join. */
  function BareJoin(nick: JsString, text: JsString): JsString { nick + [BAR] + text }

  // ---- their bytes ----

  function FrameBytes(field: Bytes): JsString { Decimal(|field|) + ([COLON] + field) }

  predicate AllAscii(s: JsString) { forall i | 0 <= i < |s| :: s[i] < 0x80 }

  lemma EncodeAsciiPrefix(s: JsString, t: JsString)
    requires AllAscii(s)
    ensures TextEncode(s + t) == s + TextEncode(t)
  {
    EncodeConcat(s, t);
    EncodeAscii(s);
  }

  lemma EncodeFrame(field: JsString)
    ensures TextEncode(Frame(field)) == FrameBytes(TextEncode(field))
  {
    DecimalDigits(|TextEncode(field)|);
    EncodeAsciiPrefix(Decimal(|TextEncode(field)|), [COLON] + field);
    EncodeAsciiPrefix([COLON], field);
  }

  lemma EncodeMessage(channelId: JsString, messageId: JsString, nick: JsString, text: JsString)
    requires AllUrl(channelId) && AllUrl(messageId)
    ensures TextEncode(MessageSigData(channelId, messageId, nick, text))
         == MessageTag() + (channelId + ([BAR] + (messageId + ([BAR]
            + (FrameBytes(TextEncode(nick)) + ([BAR] + FrameBytes(TextEncode(text))))))))
  {
    var t1 := [BAR] + Frame(text);
    var t2 := Frame(nick) + t1;
    var t3 := messageId + ([BAR] + t2);
    EncodeAsciiPrefix(MessageTag(), channelId + ([BAR] + t3));
    EncodeAsciiPrefix(channelId, [BAR] + t3);
    EncodeAsciiPrefix([BAR], t3);
    EncodeAsciiPrefix(messageId, [BAR] + t2);
    EncodeAsciiPrefix([BAR], t2);
    EncodeConcat(Frame(nick), t1);
    EncodeFrame(nick);
    EncodeAsciiPrefix([BAR], Frame(text));
    EncodeFrame(text);
  }

  lemma EncodeNick(channelId: JsString, nick: JsString)
    requires AllUrl(channelId)
    ensures TextEncode(NickSigData(channelId, nick))
         == NickTag() + (channelId + ([BAR] + FrameBytes(TextEncode(nick))))
  {
    var t := [BAR] + Frame(nick);
    EncodeAsciiPrefix(NickTag(), channelId + t);
    EncodeAsciiPrefix(channelId, t);
    EncodeAsciiPrefix([BAR], Frame(nick));
    EncodeFrame(nick);
  }

  // ---- unique reading ----

  /** What stands before the first separator is determined by the whole string. */
  lemma SplitUnique(a: JsString, x: JsString, b: JsString, y: JsString, sep: CodeUnit)
    requires a + ([sep] + x) == b + ([sep] + y)
    requires sep !in a && sep !in b
    ensures a == b && x == y
  {
    var s, t := a + ([sep] + x), b + ([sep] + y);
    assert s[|a|] == sep && t[|b|] == sep;
    assert forall i | 0 <= i < |a| :: s[i] == a[i] && s[i] != sep;
    assert forall i | 0 <= i < |b| :: t[i] == b[i] && t[i] != sep;
    assert a == s[..|a|] && b == t[..|b|];
    assert x == s[|a| + 1..] && y == t[|b| + 1..];
  }

  lemma PrefixUnique(p: JsString, x: JsString, y: JsString)
    requires p + x == p + y
    ensures x == y
  {
    assert x == (p + x)[|p|..] && y == (p + y)[|p|..];
  }

  lemma FrameUnique(f: Bytes, x: JsString, g: Bytes, y: JsString)
    requires FrameBytes(f) + x == FrameBytes(g) + y
    ensures f == g && x == y
  {
    DecimalDigits(|f|);
    DecimalDigits(|g|);
    assert FrameBytes(f) + x == Decimal(|f|) + ([COLON] + (f + x));
    assert FrameBytes(g) + y == Decimal(|g|) + ([COLON] + (g + y));
    SplitUnique(Decimal(|f|), f + x, Decimal(|g|), g + y, COLON);
    DecimalInjective(|f|, |g|);
    assert f == (f + x)[..|f|] && g == (g + y)[..|g|];
    assert x == (f + x)[|f|..] && y == (g + y)[|g|..];
  }

  lemma NoBar(s: JsString)
    requires AllUrl(s)
    ensures BAR !in s
  {
  }

  /** Two messages are signed over the same bytes if and only if room, message id,
      nickname and text agree, the last two up to the U+FFFD replacement. */
  lemma MessageSigDataInjective(c: JsString, m: JsString, n: JsString, t: JsString,
                                c': JsString, m': JsString, n': JsString, t': JsString)
    requires AllUrl(c) && AllUrl(m) && AllUrl(c') && AllUrl(m')
    ensures TextEncode(MessageSigData(c, m, n, t)) == TextEncode(MessageSigData(c', m', n', t'))
       <==> c == c' && m == m' && ToWellFormed(n) == ToWellFormed(n') && ToWellFormed(t) == ToWellFormed(t')
  {
    EncodeMessage(c, m, n, t);
    EncodeMessage(c', m', n', t');
    TextEncodeInjective(n, n');
    TextEncodeInjective(t, t');
    var f, g, f', g' := TextEncode(n), TextEncode(t), TextEncode(n'), TextEncode(t');
    if TextEncode(MessageSigData(c, m, n, t)) == TextEncode(MessageSigData(c', m', n', t')) {
      hide FrameBytes, MessageTag, TextEncode, ToWellFormed;
      var r, r' := FrameBytes(f) + ([BAR] + FrameBytes(g)), FrameBytes(f') + ([BAR] + FrameBytes(g'));
      PrefixUnique(MessageTag(), c + ([BAR] + (m + ([BAR] + r))), c' + ([BAR] + (m' + ([BAR] + r'))));
      NoBar(c); NoBar(c'); NoBar(m); NoBar(m');
      SplitUnique(c, m + ([BAR] + r), c', m' + ([BAR] + r'), BAR);
      SplitUnique(m, r, m', r', BAR);
      FrameUnique(f, [BAR] + FrameBytes(g), f', [BAR] + FrameBytes(g'));
      PrefixUnique([BAR], FrameBytes(g), FrameBytes(g'));
      assert FrameBytes(g) + [] == FrameBytes(g) && FrameBytes(g') + [] == FrameBytes(g');
      FrameUnique(g, [], g', []);
    }
  }

  lemma NickSigDataInjective(c: JsString, n: JsString, c': JsString, n': JsString)
    requires AllUrl(c) && AllUrl(c')
    ensures TextEncode(NickSigData(c, n)) == TextEncode(NickSigData(c', n'))
       <==> c == c' && ToWellFormed(n) == ToWellFormed(n')
  {
    EncodeNick(c, n);
    EncodeNick(c', n');
    TextEncodeInjective(n, n');
    var f, f' := TextEncode(n), TextEncode(n');
    if TextEncode(NickSigData(c, n)) == TextEncode(NickSigData(c', n')) {
      hide FrameBytes, NickTag, TextEncode, ToWellFormed;
      PrefixUnique(NickTag(), c + ([BAR] + FrameBytes(f)), c' + ([BAR] + FrameBytes(f')));
      NoBar(c); NoBar(c');
      SplitUnique(c, FrameBytes(f), c', FrameBytes(f'), BAR);
      assert FrameBytes(f) + [] == FrameBytes(f) && FrameBytes(f') + [] == FrameBytes(f');
      FrameUnique(f, [], f', []);
    }
  }

  /** With well-formed fields the replacement does nothing, and the encoding is injective outright. */
  lemma WellFormedSigDataInjective(c: JsString, m: JsString, n: JsString, t: JsString,
                                   c': JsString, m': JsString, n': JsString, t': JsString)
    requires AllUrl(c) && AllUrl(m) && AllUrl(c') && AllUrl(m')
    requires WellFormed(n) && WellFormed(t) && WellFormed(n') && WellFormed(t')
    requires TextEncode(MessageSigData(c, m, n, t)) == TextEncode(MessageSigData(c', m', n', t'))
    ensures (c, m, n, t) == (c', m', n', t')
  {
    MessageSigDataInjective(c, m, n, t, c', m', n', t');
  }

  /** No signature over a message can be replayed as a nickname claim, nor the other way round. */
  lemma DomainsSeparate(c: JsString, m: JsString, n: JsString, t: JsString, c': JsString, n': JsString)
    requires AllUrl(c) && AllUrl(m) && AllUrl(c')
    ensures TextEncode(MessageSigData(c, m, n, t)) != TextEncode(NickSigData(c', n'))
  {
    EncodeMessage(c, m, n, t);
    EncodeNick(c', n');
    hide FrameBytes, TextEncode;
    var s, s' := MessageTag(), NickTag();
    assert s[12] == 'm' as int && s'[12] == 'n' as int;
    assert TextEncode(MessageSigData(c, m, n, t))[12] == s[12];
    assert TextEncode(NickSigData(c', n'))[12] == s'[12];
  }

  /** The bare join can be split at either of two separators: the identity-v1 flaw. */
  lemma BareJoinNotInjective(a: JsString, b: JsString, c: JsString)
    ensures BareJoin(a, b + [BAR] + c) == BareJoin(a + [BAR] + b, c)
    ensures a != a + [BAR] + b
  {
    assert BareJoin(a, b + [BAR] + c) == BareJoin(a + [BAR] + b, c);
    assert |a| != |a + [BAR] + b|;
  }

  /** The replacement clause is needed: a lone surrogate and U+FFFD sign alike. */
  lemma LoneSurrogateCollides(c: JsString, m: JsString, t: JsString)
    requires AllUrl(c) && AllUrl(m)
    ensures TextEncode(MessageSigData(c, m, [0xD800], t)) == TextEncode(MessageSigData(c, m, [0xFFFD], t))
  {
    MessageSigDataInjective(c, m, [0xD800], t, c, m, [0xFFFD], t);
    assert Scalars([0xD800]) == [0xFFFD] + Scalars([]) == Scalars([0xFFFD]);
  }

  /** What is signed, field by field; a length counts bytes. */
  lemma SignedFormat(c: JsString, m: JsString, n: JsString, t: JsString)
    ensures var bar, colon := Ascii("|"), Ascii(":");
            var nick := Decimal(|TextEncode(n)|) + (colon + n);
            var text := Decimal(|TextEncode(t)|) + (colon + t);
            && MessageSigData(c, m, n, t)
               == Ascii("identity-v2|msg|") + (c + (bar + (m + (bar + (nick + (bar + text))))))
            && NickSigData(c, n) == Ascii("identity-v2|nick|") + (c + (bar + nick))
  {
    assert Ascii("|") == [BAR] && Ascii(":") == [COLON];
    hide TextEncode, Decimal;
  }
}
