/** `toText` of `server/src/lib/sendgrid.js`: the plain-text fallback of an
    HTML mail body. Every `<`, one or more non-`>` characters, `>` becomes
    one space, scanning left to right; then every run of white space
    becomes one space; then the ends are trimmed. White space is the set
    JavaScript's `\s` and `trim` share, `IsSpace`. */
module MailText {
  import opened Common

  /** The first index of `c` in `s`. */
  function IndexOf(s: string, c: char): (r: Option<nat>)
    ensures r.Some? ==> r.value < |s| && s[r.value] == c
    ensures r.Some? ==> forall k :: 0 <= k < r.value ==> s[k] != c
    ensures r.None? <==> forall k :: 0 <= k < |s| ==> s[k] != c
  {
    if |s| == 0 then None
    else if s[0] == c then Some(0)
    else
      var k := IndexOf(s[1..], c);
      if k.Some? then Some(k.value + 1) else None
  }

  /** Where `/<[^>]+>/` matches at the start of `s`, the index of its `>`:
      the first `>` after the `<`, provided something lies between. */
  function TagEnd(s: string): (r: Option<nat>)
    ensures r.Some? ==> 2 <= r.value < |s|
  {
    if |s| == 0 || s[0] != '<' then None
    else
      var k := IndexOf(s[1..], '>');
      if k.Some? && k.value >= 1 then Some(k.value + 1) else None
  }

  /** A match of `/<[^>]+>/` from `i` to `j` in `t`. */
  predicate TagAt(t: string, i: int, j: int) {
    && 0 <= i && i + 2 <= j < |t| && t[i] == '<' && t[j] == '>'
    && forall k :: i < k < j ==> t[k] != '>'
  }

  /** `TagEnd` finds exactly the match that starts at 0. */
  lemma TagEndIff(s: string, j: int)
    ensures TagEnd(s) == Some(j) <==> TagAt(s, 0, j)
  {
    if |s| > 0 && s[0] == '<' {
      var k := IndexOf(s[1..], '>');
      if TagAt(s, 0, j) {
        assert s[1..][j - 1] == '>';
        assert forall m :: 0 <= m < j - 1 ==> s[1..][m] == s[m + 1];
      }
      if k.Some? {
        assert forall m :: 0 < m < k.value + 1 ==> s[m] == s[1..][m - 1];
      }
    }
  }

  /** `html.replace(/<[^>]+>/g, ' ')`. */
  function StripTags(s: string): string
    decreases |s|
  {
    if |s| == 0 then ""
    else
      var e := TagEnd(s);
      if e.Some? then " " + StripTags(s[e.value + 1..])
      else [s[0]] + StripTags(s[1..])
  }

  ghost predicate NoTag(t: string) {
    forall i, j :: !TagAt(t, i, j)
  }

  predicate NoClose(t: string) {
    forall k :: 0 <= k < |t| ==> t[k] != '>'
  }

  /** Stripping adds no `>`. */
  lemma {:induction false} StripKeepsNoClose(s: string)
    requires NoClose(s)
    ensures NoClose(StripTags(s))
    decreases |s|
  {
    if |s| > 0 {
      var e := TagEnd(s);
      if e.Some? {
        assert false;
      } else {
        assert NoClose(s[1..]) by {
          assert forall k :: 0 <= k < |s| - 1 ==> s[1..][k] == s[k + 1];
        }
        StripKeepsNoClose(s[1..]);
      }
    }
  }

  /** A stripped string starts with the input's first character unless that
      character opens a match. */
  lemma StripHead(s: string)
    requires |s| > 0 && s[0] != '<'
    ensures |StripTags(s)| > 0 && StripTags(s)[0] == s[0]
  {
  }

  /** A match in `c + t` that does not start at 0 is a match in `t`. */
  lemma TagShift(c: string, t: string, i: int, j: int)
    requires |c| == 1
    ensures TagAt(c + t, i, j) && i >= 1 ==> TagAt(t, i - 1, j - 1)
  {
    if TagAt(c + t, i, j) && i >= 1 {
      forall k | i - 1 < k < j - 1 ensures t[k] != '>' {
        assert t[k] == (c + t)[k + 1];
      }
    }
  }

  /** A match in the tail of `s` is a match in `s`. */
  lemma TagInTail(s: string, i: int, j: int)
    requires |s| > 0
    ensures TagAt(s[1..], i, j) ==> TagAt(s, i + 1, j + 1)
  {
    if TagAt(s[1..], i, j) {
      assert forall k :: i + 1 < k < j + 1 ==> s[k] == s[1..][k - 1];
    }
  }

  /** No match of `/<[^>]+>/` survives the replacement. */
  lemma {:induction false} StripLeavesNoTag(s: string)
    ensures NoTag(StripTags(s))
    decreases |s|
  {
    if |s| > 0 {
      var e := TagEnd(s);
      if e.Some? {
        StripLeavesNoTag(s[e.value + 1..]);
        SpaceThenNoTag(s);
      } else {
        StripLeavesNoTag(s[1..]);
        KeptThenNoTag(s);
      }
    }
  }

  /** The space that replaces a match opens no match. */
  lemma SpaceThenNoTag(s: string)
    requires |s| > 0 && TagEnd(s).Some? && NoTag(StripTags(s[TagEnd(s).value + 1..]))
    ensures NoTag(StripTags(s))
  {
    var rest := StripTags(s[TagEnd(s).value + 1..]);
    assert StripTags(s) == " " + rest;
    forall i, j ensures !TagAt(" " + rest, i, j) {
      TagShift(" ", rest, i, j);
    }
  }

  /** A kept first character opens no match in front of a stripped rest. */
  lemma KeptThenNoTag(s: string)
    requires |s| > 0 && TagEnd(s).None? && NoTag(StripTags(s[1..]))
    ensures NoTag(StripTags(s))
  {
    var rest := StripTags(s[1..]);
    assert StripTags(s) == [s[0]] + rest;
    forall i, j ensures !TagAt([s[0]] + rest, i, j) {
      TagShift([s[0]], rest, i, j);
      KeptOpenerIsNoTag(s, rest, j);
    }
  }

  /** A `<` that opens no match in `s` opens none after stripping the rest:
      either a `>` follows it at once, or no `>` follows it at all. */
  lemma KeptOpenerIsNoTag(s: string, rest: string, j: int)
    requires |s| > 0 && TagEnd(s).None? && rest == StripTags(s[1..])
    ensures !TagAt([s[0]] + rest, 0, j)
  {
    if s[0] == '<' {
      var out := [s[0]] + rest;
      var k := IndexOf(s[1..], '>');
      if k.Some? {
        StripHead(s[1..]);
        assert out[1] == '>';
      } else {
        StripKeepsNoClose(s[1..]);
        assert forall m :: 1 <= m < |out| ==> out[m] == rest[m - 1];
      }
    }
  }

  /** Stripping changes nothing in a string with no match, so stripping
      twice is stripping once. */
  lemma {:induction false} StripFixesNoTag(s: string)
    requires NoTag(s)
    ensures StripTags(s) == s
    decreases |s|
  {
    if |s| > 0 {
      if TagEnd(s).Some? {
        TagEndIff(s, TagEnd(s).value);
        assert false;
      }
      forall i, j ensures !TagAt(s[1..], i, j) {
        TagInTail(s, i, j);
      }
      StripFixesNoTag(s[1..]);
      assert s == [s[0]] + s[1..];
    }
  }

  lemma StripIdempotent(s: string)
    ensures StripTags(StripTags(s)) == StripTags(s)
  {
    StripLeavesNoTag(s);
    StripFixesNoTag(StripTags(s));
  }

  /** `.replace(/\s+/g, ' ')`. */
  function Collapse(s: string): string
    decreases |s|
  {
    if |s| == 0 then ""
    else if IsSpace(s[0]) then " " + Collapse(TrimStart(s[1..]))
    else [s[0]] + Collapse(s[1..])
  }

  /** Every white space character is a plain space, and no two are
      adjacent. */
  predicate Collapsed(t: string) {
    && (forall i :: 0 <= i < |t| && IsSpace(t[i]) ==> t[i] == ' ')
    && (forall i :: 0 <= i < |t| - 1 ==> !(IsSpace(t[i]) && IsSpace(t[i + 1])))
  }

  /** `Collapse` starts with white space exactly when its input does. */
  lemma CollapseHead(s: string)
    requires |s| > 0
    ensures |Collapse(s)| > 0 && (IsSpace(Collapse(s)[0]) <==> IsSpace(s[0]))
  {
  }

  lemma TrimStartHead(s: string)
    ensures |TrimStart(s)| > 0 ==> !IsSpace(TrimStart(s)[0])
  {
    TrimStartCut(s);
  }

  lemma {:induction false} CollapseIsCollapsed(s: string)
    ensures Collapsed(Collapse(s))
    decreases |s|
  {
    if |s| > 0 {
      var t := if IsSpace(s[0]) then TrimStart(s[1..]) else s[1..];
      CollapseIsCollapsed(t);
      var c := Collapse(t);
      var h := if IsSpace(s[0]) then ' ' else s[0];
      assert Collapse(s) == [h] + c;
      if |t| > 0 {
        CollapseHead(t);
        if IsSpace(s[0]) { TrimStartHead(s[1..]); }
      }
      assert forall i :: 0 < i < |[h] + c| ==> ([h] + c)[i] == c[i - 1];
    }
  }

  /** A collapsed string is its own collapse. */
  lemma {:induction false} CollapseFixesCollapsed(s: string)
    requires Collapsed(s)
    ensures Collapse(s) == s
    decreases |s|
  {
    if |s| > 0 {
      assert Collapsed(s[1..]) by {
        assert forall i :: 0 <= i < |s| - 1 ==> s[1..][i] == s[i + 1];
      }
      if IsSpace(s[0]) {
        assert TrimStart(s[1..]) == s[1..];
      }
      CollapseFixesCollapsed(s[1..]);
      assert s == [s[0]] + s[1..];
    }
  }

  lemma CollapsedSlice(t: string, a: int, b: int)
    requires Collapsed(t) && 0 <= a <= b <= |t|
    ensures Collapsed(t[a..b])
  {
    assert forall i :: 0 <= i < b - a ==> t[a..b][i] == t[a + i];
  }

  /** `toText(html)`. */
  function ToText(html: string): string {
    Trim(Collapse(StripTags(html)))
  }

  /** The text has no white space at its ends, no white space other than
      single plain spaces, and the default `html = ''` gives "". */
  lemma ToTextShape(html: string)
    ensures NoEdgeSpace(ToText(html))
    ensures Collapsed(ToText(html))
    ensures ToText("") == ""
  {
    var c := Collapse(StripTags(html));
    TrimNoEdge(c);
    CollapseIsCollapsed(StripTags(html));
    var a := |c| - |TrimStart(c)|;
    TrimSlice(c, a, a + |Trim(c)|);
    CollapsedSlice(c, a, a + |Trim(c)|);
  }

  /** On a string that is already collapsed, trimmed and free of tags,
      `toText` changes nothing. */
  lemma ToTextFixes(s: string)
    requires NoTag(s) && Collapsed(s) && NoEdgeSpace(s)
    ensures ToText(s) == s
  {
    StripFixesNoTag(s);
    CollapseFixesCollapsed(s);
    TrimmedIsFixpoint(s);
  }
}
