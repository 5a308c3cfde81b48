/**
 * Removal of markup tags from a post's `source` text, as done by
 * `replaceAll(/<[^>]*>/gi, "")`. Scanning left to right, a '<' that has a
 * '>' somewhere after it starts a tag that ends at the first such '>', and
 * the whole tag is dropped; a '<' with no '>' after it can start no match,
 * and neither can any later position, so the rest is kept as it is. Every
 * other character is kept.
 */
module Markup {
  import opened Wrappers

  /** True when `s` holds no complete tag: no '<' has a '>' anywhere after it. */
  predicate NoTag(s: string) {
    forall i, j :: 0 <= i < j < |s| && s[i] == '<' ==> s[j] != '>'
  }

  /** Position of the first '>' in `s`, if there is one. */
  function CloseAt(s: string): (k: Option<nat>)
    ensures k.Some? ==> k.value < |s| && s[k.value] == '>'
    ensures k.Some? ==> forall j :: 0 <= j < k.value ==> s[j] != '>'
    ensures k.None? ==> forall j :: 0 <= j < |s| ==> s[j] != '>'
  {
    if s == [] then None
    else if s[0] == '>' then Some(0)
    else
      match CloseAt(s[1..])
      case None => None
      case Some(k) => Some(k + 1)
  }

  /** `s` with every complete tag removed; removing never lengthens the text. */
  function StripTags(s: string): (r: string)
    ensures |r| <= |s|
    decreases |s|
  {
    if s == [] then []
    else if s[0] == '<' then
      match CloseAt(s[1..])
      case Some(k) => StripTags(s[k + 2..])
      case None => s
    else [s[0]] + StripTags(s[1..])
  }

  /**
   * Stripping removes characters only: the result invents no character. The
   * length bound of `StripTags`'s own contract is restated here on purpose, so
   * both halves of "removes only" sit together.
   */
  lemma {:induction false} StripTagsShrinks(s: string, c: char)
    ensures |StripTags(s)| <= |s|
    ensures c !in s ==> c !in StripTags(s)
    decreases |s|
  {
    if s == [] {
    } else if s[0] == '<' && CloseAt(s[1..]).Some? {
      var n := CloseAt(s[1..]).value + 2;
      StripTagsShrinks(s[n..], c);
      if c !in s {
        assert forall k :: 0 <= k < |s[n..]| ==> s[n..][k] == s[n + k];
      }
    } else if s[0] != '<' {
      StripTagsShrinks(s[1..], c);
      if c !in s {
        assert forall k :: 0 <= k < |s[1..]| ==> s[1..][k] == s[1 + k];
      }
    }
  }

  /** The stripped text holds no complete tag. */
  lemma {:induction false} StripTagsLeavesNoTag(s: string)
    ensures NoTag(StripTags(s))
    decreases |s|
  {
    if s == [] {
    } else if s[0] == '<' {
      match CloseAt(s[1..])
      case Some(k) =>
        StripTagsLeavesNoTag(s[k + 2..]);
      case None =>
        forall i, j | 0 <= i < j < |s| && s[i] == '<' ensures s[j] != '>' {
          assert s[j] == s[1..][j - 1];
        }
    } else {
      var rest := StripTags(s[1..]);
      StripTagsLeavesNoTag(s[1..]);
      var r := [s[0]] + rest;
      forall i, j | 0 <= i < j < |r| && r[i] == '<' ensures r[j] != '>' {
        assert i > 0;
        assert r[i] == rest[i - 1] && r[j] == rest[j - 1];
      }
    }
  }

  /** Text without a complete tag is left unchanged. */
  lemma {:induction false} StripTagsKeepsUntagged(s: string)
    requires NoTag(s)
    ensures StripTags(s) == s
    decreases |s|
  {
    if s != [] {
      if s[0] != '<' {
        var tail := s[1..];
        forall i, j | 0 <= i < j < |tail| && tail[i] == '<' ensures tail[j] != '>' {
          assert tail[i] == s[i + 1] && tail[j] == s[j + 1];
        }
        StripTagsKeepsUntagged(tail);
        assert s == [s[0]] + tail;
      }
    }
  }

  /** Stripping twice is the same as stripping once. */
  lemma {:induction false} StripTagsIdempotent(s: string)
    ensures StripTags(StripTags(s)) == StripTags(s)
  {
    StripTagsLeavesNoTag(s);
    StripTagsKeepsUntagged(StripTags(s));
  }

  /** The texts that stripping leaves unchanged are exactly those without a complete tag. */
  lemma {:induction false} StripTagsFixedPoints(s: string)
    ensures StripTags(s) == s <==> NoTag(s)
  {
    StripTagsLeavesNoTag(s);
    if NoTag(s) {
      StripTagsKeepsUntagged(s);
    }
  }

  /** A leading run of text without '<' is kept as it is. */
  lemma {:induction false} StripTagsKeepsText(text: string, rest: string)
    requires '<' !in text
    ensures StripTags(text + rest) == text + StripTags(rest)
    decreases |text|
  {
    if text != [] {
      var s := text + rest;
      assert s[0] == text[0] && s[1..] == text[1..] + rest;
      assert text[0] in text;
      assert StripTags(s) == [text[0]] + StripTags(text[1..] + rest);
      StripTagsKeepsText(text[1..], rest);
      assert text == [text[0]] + text[1..];
      assert [text[0]] + (text[1..] + StripTags(rest)) == text + StripTags(rest);
    } else {
      assert text + rest == rest;
    }
  }

  /** A leading tag, from '<' to the first '>' after it, is dropped whole. */
  lemma StripTagsDropsTag(body: string, rest: string)
    requires '>' !in body
    ensures StripTags(['<'] + body + ['>'] + rest) == StripTags(rest)
  {
    var s := ['<'] + body + ['>'] + rest;
    assert s[1..] == body + ['>'] + rest;
    assert s[1..][|body|] == '>';
    assert CloseAt(s[1..]) == Some(|body|);
    assert s[|body| + 2..] == rest;
  }

  /** A single element keeps only its text: `<open>text<close>` strips to `text`. */
  lemma StripTagsElement(open: string, text: string, close: string)
    requires '>' !in open && '<' !in text && '>' !in close
    ensures StripTags(['<'] + open + ['>'] + text + ['<'] + close + ['>']) == text
  {
    var closing := ['<'] + close + ['>'];
    assert StripTags(closing) == [] by {
      StripTagsDropsTag(close, []);
      assert closing + [] == closing;
    }
    var inner := text + closing;
    assert StripTags(inner) == text by {
      StripTagsKeepsText(text, closing);
    }
    var whole := ['<'] + open + ['>'] + inner;
    assert StripTags(whole) == text by {
      StripTagsDropsTag(open, inner);
    }
    assert ['<'] + open + ['>'] + text + ['<'] + close + ['>'] == whole;
  }
}
