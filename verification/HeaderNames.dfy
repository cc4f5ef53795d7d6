/**
 How a header name travels as an IBM MQ message property name
 (faststream_mq/helpers/client.py:753-764 and 824-829).
 */
module HeaderNames {
  const DASH := "_dash_"

  /** `name.replace("-", "_dash_")` */
  function EscapeDashes(name: string): string {
    if name == "" then ""
    else (if name[0] == '-' then DASH else [name[0]]) + EscapeDashes(name[1..])
  }

  /** `name.replace("_dash_", "-")`: leftmost, non-overlapping. */
  function UnescapeDashes(name: string): string {
    if |name| < |DASH| then name
    else if name[..|DASH|] == DASH then "-" + UnescapeDashes(name[|DASH|..])
    else [name[0]] + UnescapeDashes(name[1..])
  }

  /** `_property_name_from_header` */
  function PropertyName(header: string): string {
    "usr." + EscapeDashes(header)
  }

  /** `_strip_property_prefix` */
  function StripPropertyPrefix(name: string): string {
    if "usr." <= name then name[4..] else name
  }

  /** The characters Python's `str.strip` removes. */
  predicate IsSpace(c: char) {
    var u := c as int;
    || 9 <= u <= 13 || 28 <= u <= 32 || u == 0x85 || u == 0xA0 || u == 0x1680
    || 0x2000 <= u <= 0x200A || u == 0x2028 || u == 0x2029 || u == 0x202F || u == 0x205F || u == 0x3000
  }

  function StripLeft(s: string): string {
    if s != "" && IsSpace(s[0]) then StripLeft(s[1..]) else s
  }

  function StripRight(s: string): (r: string)
    ensures r <= s
    ensures r == "" || !IsSpace(r[|r| - 1])
    ensures s == "" || !IsSpace(s[|s| - 1]) ==> r == s
  {
    if s != "" && IsSpace(s[|s| - 1]) then StripRight(s[..|s| - 1]) else s
  }

  /** `_mq_str` on text: `value.strip()`. */
  function MqStr(s: string): string {
    StripRight(StripLeft(s))
  }

  lemma {:induction false} StripLeftFront(s: string)
    ensures StripLeft(s) == "" || !IsSpace(StripLeft(s)[0])
  {
    if s != "" && IsSpace(s[0]) {
      StripLeftFront(s[1..]);
    }
  }

  /** Stripping twice is stripping once. */
  lemma MqStrIdempotent(s: string)
    ensures MqStr(MqStr(s)) == MqStr(s)
  {
    StripLeftFront(s);
    var t := StripRight(StripLeft(s));
    assert t != "" ==> t[0] == StripLeft(s)[0];
  }

  /** The header name a consumer derives from a property name (client.py:729-731). */
  function HeaderName(property: string): string {
    UnescapeDashes(StripPropertyPrefix(MqStr(property)))
  }

  /** `pattern` occurs somewhere in `s`. */
  ghost predicate Contains(s: string, pattern: string) {
    exists i :: 0 <= i <= |s| - |pattern| && s[i..][..|pattern|] == pattern
  }

  ghost predicate Escapable(name: string) {
    !Contains(name, "_dash_") && !Contains(name, "_dash-")
  }

  predicate EndsInSpace(name: string) {
    name != "" && IsSpace(name[|name| - 1])
  }

  // ---------- the codec alone ----------

  predicate StartsBadly(name: string) {
    "_dash_" <= name || "_dash-" <= name
  }

  lemma ContainsStep(name: string)
    requires name != ""
    ensures Escapable(name) <==> !StartsBadly(name) && Escapable(name[1..])
  {
    ContainsFirst(name, "_dash_");
    ContainsFirst(name, "_dash-");
  }

  lemma ContainsFirst(s: string, pattern: string)
    requires s != "" && pattern != ""
    ensures Contains(s, pattern) <==> pattern <= s || Contains(s[1..], pattern)
  {
    if Contains(s, pattern) {
      var i :| 0 <= i <= |s| - |pattern| && s[i..][..|pattern|] == pattern;
      if i > 0 {
        assert s[1..][i - 1..] == s[i..];
      }
    }
    if pattern <= s {
      assert s[0..][..|pattern|] == pattern;
    }
    if Contains(s[1..], pattern) {
      var i :| 0 <= i <= |s[1..]| - |pattern| && s[1..][i..][..|pattern|] == pattern;
      assert s[1..][i..] == s[i + 1..];
    }
  }

  /** A plain character at the front of an escaped name stands for itself. */
  lemma PlainFront(name: string, c: char, rest: string)
    requires c != '_' && c != '-'
    ensures [c] + rest <= EscapeDashes(name) <==>
            name != "" && name[0] == c && rest <= EscapeDashes(name[1..])
  {
    if name != "" {
      var e := EscapeDashes(name);
      if name[0] == '-' {
        assert e[0] == '_';
      } else {
        assert e[1..] == EscapeDashes(name[1..]);
        if [c] + rest <= e {
          assert ([c] + rest)[1..] <= e[1..];
        }
      }
    }
  }

  /** An escaped name begins with an escaped dash only if a dash, or a look-alike, is there. */
  lemma EscapedFront(name: string)
    requires name != "" && name[0] != '-'
    ensures DASH <= EscapeDashes(name) <==> StartsBadly(name)
  {
    var e, tail := EscapeDashes(name), name[1..];
    assert e[0] == name[0] && e[1..] == EscapeDashes(tail);
    PrefixStep('_', "dash_", e);
    PrefixStep('_', "dash_", name);
    PrefixStep('_', "dash-", name);
    PlainFour(tail);
  }

  lemma PrefixStep(c: char, rest: string, s: string)
    ensures [c] + rest <= s <==> s != "" && s[0] == c && rest <= s[1..]
  {
    if [c] + rest <= s {
      assert rest == ([c] + rest)[1..] <= s[1..];
    }
    if s != "" && s[0] == c && rest <= s[1..] {
      assert s == [c] + s[1..];
    }
  }

  lemma PlainFour(tail: string)
    ensures "dash_" <= EscapeDashes(tail) <==> "dash_" <= tail || "dash-" <= tail
  {
    PlainFront(tail, 'd', "ash_");
    PrefixStep('d', "ash_", tail);
    PrefixStep('d', "ash-", tail);
    if tail != "" {
      PlainThree(tail[1..]);
    }
  }

  lemma PlainThree(tail: string)
    ensures "ash_" <= EscapeDashes(tail) <==> "ash_" <= tail || "ash-" <= tail
  {
    PlainFront(tail, 'a', "sh_");
    assert "ash_" == ['a'] + "sh_";
    if tail != "" {
      PlainFront(tail[1..], 's', "h_");
      assert "sh_" == ['s'] + "h_";
      if tail[1..] != "" {
        PlainFront(tail[1..][1..], 'h', "_");
        assert "h_" == ['h'] + "_";
      }
    }
  }

  /** Decoding the encoded name gives the name back exactly when it contains neither look-alike. */
  lemma {:induction false} DashRoundTrip(name: string)
    ensures UnescapeDashes(EscapeDashes(name)) == name <==> Escapable(name)
  {
    if name != "" {
      ContainsStep(name);
      DashRoundTrip(name[1..]);
      var e := EscapeDashes(name);
      if name[0] == '-' {
        assert e[..6] == DASH && e[6..] == EscapeDashes(name[1..]);
        assert name == "-" + name[1..];
      } else {
        EscapedFront(name);
        assert e[1..] == EscapeDashes(name[1..]);
        if DASH <= e {
          assert e[..6] == DASH;
          assert UnescapeDashes(e)[0] == '-';
        } else {
          assert |e| >= 6 ==> e[..6] != DASH;
          UnescapeStep(e);
          assert name == [name[0]] + name[1..];
        }
      }
    }
  }

  /** Where no escape starts, the first character is kept. */
  lemma UnescapeStep(s: string)
    requires s != "" && !(DASH <= s)
    ensures UnescapeDashes(s) == [s[0]] + UnescapeDashes(s[1..])
  {
    if |s| < 6 {
      assert s == [s[0]] + s[1..];
    } else {
      assert s[..6] != DASH;
    }
  }

  // ---------- the codec with the prefix and the stripping around it ----------

  lemma {:induction false} EscapeEnd(name: string)
    ensures name == "" <==> EscapeDashes(name) == ""
    ensures EndsInSpace(EscapeDashes(name)) <==> EndsInSpace(name)
  {
    if name != "" {
      EscapeEnd(name[1..]);
      var e := EscapeDashes(name);
      if name[1..] == "" {
        assert name == [name[0]];
      } else {
        var tail := EscapeDashes(name[1..]);
        assert e[|e| - 1] == tail[|tail| - 1];
      }
    }
  }

  lemma {:induction false} UnescapeEnd(s: string)
    requires !EndsInSpace(s)
    ensures !EndsInSpace(UnescapeDashes(s))
  {
    if |s| >= 6 {
      var k := if s[..6] == DASH then 6 else 1;
      var t, front := s[k..], if k == 6 then "-" else [s[0]];
      assert UnescapeDashes(s) == front + UnescapeDashes(t);
      if t != "" {
        assert s == s[..k] + t;
        AppendEnd(s[..k], t);
        UnescapeEnd(t);
        UnescapeNonEmpty(t);
        AppendEnd(front, UnescapeDashes(t));
      }
    }
  }

  lemma AppendEnd(front: string, s: string)
    requires s != ""
    ensures EndsInSpace(front + s) <==> EndsInSpace(s)
  {
  }

  lemma UnescapeNonEmpty(s: string)
    ensures UnescapeDashes(s) == "" <==> s == ""
  {
  }

  /** The prefix shields the front of the name from stripping, and only trailing space is lost. */
  lemma WireName(name: string)
    ensures HeaderName(PropertyName(name)) == UnescapeDashes(StripRight(EscapeDashes(name)))
  {
    var p := PropertyName(name);
    assert StripLeft(p) == p;
    StripRightAfter("usr.", EscapeDashes(name));
    assert ("usr." + StripRight(EscapeDashes(name)))[4..] == StripRight(EscapeDashes(name));
  }

  lemma {:induction false} StripRightAfter(front: string, s: string)
    requires front != "" && !EndsInSpace(front)
    ensures StripRight(front + s) == front + StripRight(s)
  {
    if s == "" {
      assert front + s == front;
    } else if IsSpace(s[|s| - 1]) {
      assert (front + s)[..|front + s| - 1] == front + s[..|s| - 1];
      StripRightAfter(front, s[..|s| - 1]);
    }
  }

  /** A header name survives the wire exactly when it is escapable and does not end in white space. */
  lemma HeaderNameRoundTrip(name: string)
    ensures HeaderName(PropertyName(name)) == name <==> Escapable(name) && !EndsInSpace(name)
  {
    WireName(name);
    EscapeEnd(name);
    var e := EscapeDashes(name);
    if EndsInSpace(name) {
      UnescapeEnd(StripRight(e));
    } else {
      assert StripRight(e) == e;
      DashRoundTrip(name);
    }
  }

  /** Names that survive the wire are never confused with each other. */
  lemma PropertyNameInjective(a: string, b: string)
    requires HeaderName(PropertyName(a)) == a && HeaderName(PropertyName(b)) == b
    ensures PropertyName(a) == PropertyName(b) <==> a == b
  {
  }

  /** The straddling example: no `_dash_` inside, yet the name comes back changed. */
  lemma StraddlingNameIsLost()
    ensures !Contains("_dash-", "_dash_")
    ensures UnescapeDashes(EscapeDashes("_dash-")) == "-dash_"
  {
    var name := "_dash-";
    assert name[0..][..6] == name && name[5] == '-';
    assert EscapeDashes(name) == "_dash_dash_" by {
      assert name[1..] == "dash-" && name[1..][1..] == "ash-" && name[1..][1..][1..] == "sh-";
      assert "sh-"[1..] == "h-" && "h-"[1..] == "-" && "-"[1..] == "";
    }
    var e := "_dash_dash_";
    assert e[..6] == DASH && e[6..] == "dash_";
  }
}
