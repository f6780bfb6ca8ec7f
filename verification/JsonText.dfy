/** How printed JSON looks from the side of a program that appends pieces of text. */
module JsonText {
  import opened Json

  /** Text that escaping leaves alone. */
  predicate Plain(s: string) {
    forall i :: 0 <= i < |s| ==> s[i] >= ' ' && s[i] != '"' && s[i] != '\\'
  }

  lemma {:induction false} PlainEscape(s: string)
    requires Plain(s)
    ensures Escape(s) == s
  {
    if s != "" {
      PlainEscape(s[1..]);
    }
  }

  lemma {:induction false} EscapeAppend(s: string, c: char)
    ensures Escape(s + [c]) == Escape(s) + EscapeChar(c)
  {
    if s == "" {
      assert [c][1..] == "" && Escape([c]) == EscapeChar(c) + "";
    } else {
      EscapeAppend(s[1..], c);
      assert (s + [c])[1..] == s[1..] + [c];
      Regroup(EscapeChar(s[0]), Escape(s[1..]), EscapeChar(c));
    }
  }

  lemma {:induction false} PrintMembersAppend(members: seq<Member>, m: Member)
    ensures PrintMembers(members + [m]) ==
            if members == [] then PrintMember(m) else PrintMembers(members) + "," + PrintMember(m)
  {
    if |members| > 1 {
      PrintMembersAppend(members[1..], m);
      assert (members + [m])[1..] == members[1..] + [m];
      RegroupThree(PrintMember(members[0]), ",", PrintMembers(members[1..]), ",", PrintMember(m));
    } else if |members| == 1 {
      assert (members + [m])[1..] == [m];
    }
  }

  lemma {:induction false} PrintItemsAppend(items: seq<Value>, v: Value)
    ensures PrintItems(items + [v]) == if items == [] then Print(v) else PrintItems(items) + "," + Print(v)
  {
    if |items| > 1 {
      PrintItemsAppend(items[1..], v);
      assert (items + [v])[1..] == items[1..] + [v];
      RegroupThree(Print(items[0]), ",", PrintItems(items[1..]), ",", Print(v));
    } else if |items| == 1 {
      assert (items + [v])[1..] == [v];
    }
  }

  lemma {:induction false} RegroupThree(a: string, b: string, c: string, d: string, e: string)
    ensures a + b + (c + d + e) == a + b + c + d + e
  {
    Regroup(a + b, c + d, e);
    Regroup(a + b, c, d);
  }

  /** What stands between the members or items already written and the next one. */
  function Comma(first: bool): string {
    if first then "" else ","
  }

  /** One more member at the end of an open object. */
  lemma MembersGrow(start: string, members: seq<Member>, m: Member)
    ensures start + PrintMembers(members + [m]) ==
            start + PrintMembers(members) + Comma(members == []) + Quote(m.key) + ":" + Print(m.value)
  {
    PrintMembersAppend(members, m);
    var open, comma, q := start + PrintMembers(members), Comma(members == []), Quote(m.key);
    Regroup(open + comma + q, ":", Print(m.value));
    Regroup(open + comma, q, ":" + Print(m.value));
    Regroup(q, ":", Print(m.value));
    if members == [] {
      assert open + comma == start;
    } else {
      Regroup(start, PrintMembers(members), comma);
      Regroup(start, PrintMembers(members) + comma, PrintMember(m));
    }
  }

  /** One more value at the end of an open array. */
  lemma ItemsGrow(start: string, items: seq<Value>, v: Value)
    ensures start + PrintItems(items + [v]) == start + PrintItems(items) + Comma(items == []) + Print(v)
  {
    PrintItemsAppend(items, v);
    if items == [] {
      assert start + PrintItems(items) + Comma(true) == start;
    } else {
      Regroup(start, PrintItems(items), ",");
      Regroup(start, PrintItems(items) + ",", Print(v));
    }
  }

  /** `"key":"`, with the comma before it: how the sinks start a member whose value is a string. */
  function StringKey(first: bool, key: string): string {
    Comma(first) + "\"" + key + "\":\""
  }

  /** `"key":`, with the comma before it. */
  function PlainKey(first: bool, key: string): string {
    Comma(first) + "\"" + key + "\":"
  }

  lemma PlainMembersGrow(start: string, members: seq<Member>, key: string, v: Value)
    requires Plain(key)
    ensures start + PrintMembers(members + [Member(key, v)]) ==
            start + PrintMembers(members) + PlainKey(members == [], key) + Print(v)
  {
    MembersGrow(start, members, Member(key, v));
    PlainEscape(key);
    var open, comma := start + PrintMembers(members), Comma(members == []);
    Regroup(open + comma, Quote(key), ":");
    Regroup(open, comma, Quote(key) + ":");
    QuotedKey(comma, key);
  }

  lemma QuotedKey(comma: string, key: string)
    ensures comma + ("\"" + key + "\"" + ":") == comma + "\"" + key + "\":"
  {
    assert "\"" + ":" == "\":";
    Regroup("\"" + key, "\"", ":");
    Regroup(comma, "\"" + key, "\":");
    Regroup(comma, "\"", key);
  }

  /** A member with a plain key and a string value, the way the sinks write it. */
  lemma StringMembersGrow(start: string, members: seq<Member>, key: string, s: string)
    requires Plain(key)
    ensures start + PrintMembers(members + [Member(key, Str(s))]) ==
            start + PrintMembers(members) + StringKey(members == [], key) + Escape(s) + "\""
  {
    PlainMembersGrow(start, members, key, Str(s));
    var open, k := start + PrintMembers(members), PlainKey(members == [], key);
    Regroup(open + k, "\"" + Escape(s), "\"");
    Regroup(open + k, "\"", Escape(s));
    Regroup(open, k, "\"");
    assert "\":" + "\"" == "\":\"";
    Regroup(Comma(members == []) + "\"" + key, "\":", "\"");
  }

  lemma Nest(a: string, b: string, c: string, d: string, e: string)
    ensures a + (b + c + d) + e == a + b + c + (d + e)
  {
    Regroup(a, b + c, d);
    Regroup(a, b, c);
    Regroup(a + b + c, d, e);
  }

  lemma {:induction false} OneMember(key: string, v: Value)
    requires Plain(key)
    ensures Print(Object([Member(key, v)])) == "{\"" + key + "\":" + Print(v) + "}"
  {
    PlainMembersGrow("{", [], key, v);
    assert [] + [Member(key, v)] == [Member(key, v)];
    assert "{" + "" + ("" + "\"" + key + "\":") == "{\"" + key + "\":";
  }

  lemma FirstKey(key: string)
    ensures "{" + "" + ("" + "\"" + key + "\":") == "{\"" + key + "\":"
    ensures "," + "\"" + key + "\":" == ",\"" + key + "\":"
  {
    assert "," + "\"" == ",\"";
  }

  lemma {:induction false} TwoMembers(key: string, v: Value, other: string, w: Value)
    requires Plain(key) && Plain(other)
    ensures Print(Object([Member(key, v), Member(other, w)])) ==
            "{\"" + key + "\":" + Print(v) + (",\"" + other + "\":") + Print(w) + "}"
  {
    PlainMembersGrow("{", [], key, v);
    PlainMembersGrow("{", [Member(key, v)], other, w);
    assert [] + [Member(key, v)] == [Member(key, v)];
    assert [Member(key, v)] + [Member(other, w)] == [Member(key, v), Member(other, w)];
    FirstKey(key);
    FirstKey(other);
  }
}
