/** The channel-post preview (components/PostPreview.tsx): which panel the
    post area shows, how the post card draws hashtags and the image, and
    the text the copy button puts on the clipboard. */
module PostPreview {
  import opened Wrappers
  import opened Seqs
  import opened Text
  import opened Types

  /** The three alternatives of the post area. */
  datatype Panel = Writing | Empty | PostCard

  /** The panels whose guards hold: `loading && !post`, `!post && !loading`
      and `post`, each tested on its own. */
  function ShownPanels(post: Option<GeneratedPost>, loading: bool): set<Panel> {
    (if loading && post.None? then {Writing} else {})
    + (if post.None? && !loading then {Empty} else {})
    + (if post.Some? then {PostCard} else {})
  }

  /** The three guards are exclusive and exhaustive: exactly one panel
      shows, the post whenever there is one, whatever `loading` says. */
  lemma ExactlyOnePanel(post: Option<GeneratedPost>, loading: bool)
    ensures |ShownPanels(post, loading)| == 1
    ensures PostCard in ShownPanels(post, loading) <==> post.Some?
    ensures Writing in ShownPanels(post, loading) <==> post.None? && loading
    ensures Empty in ShownPanels(post, loading) <==> post.None? && !loading
  {
    var shown := ShownPanels(post, loading);
    if post.Some? {
      assert shown == {PostCard};
    } else if loading {
      assert shown == {Writing};
    } else {
      assert shown == {Empty};
    }
  }

  /** A hashtag as the card draws it: a `#`, then the tag with its first
      `#` taken out. */
  function HashtagDisplay(tag: string): (r: string)
    ensures |r| > 0 && r[0] == '#'
    ensures '#' !in tag ==> r == "#" + tag
    ensures '#' in tag ==> |r| == |tag|
    ensures '#' in tag ==> r == "#" + tag[..FirstIndexOf(tag, '#')] + tag[FirstIndexOf(tag, '#') + 1..]
    ensures forall d: char :: d != '#' ==> Count(r[1..], d) == Count(tag, d)
  {
    var rest := RemoveFirst(tag, '#');
    forall d: char | d != '#' ensures Count(rest, d) == Count(tag, d) {
      RemoveFirstCount(tag, '#', d);
    }
    assert ("#" + rest)[1..] == rest;
    "#" + rest
  }

  /** The card and the clipboard write a tag the same way exactly when the
      tag has no `#` of its own: the card drops the tag's first `#`, the
      clipboard keeps it. */
  lemma HashtagDisplayMatchesClipboard(tag: string)
    ensures HashtagDisplay(tag) == "#" + tag <==> '#' !in tag
  {
    if '#' in tag {
      assert |HashtagDisplay(tag)| != |"#" + tag|;
    }
  }

  /** A tag that already starts with one `#` is drawn as written; only the
      first `#` of a tag is dropped, so a tag starting `##` keeps one. */
  lemma HashtagDisplayExamples(word: string)
    requires '#' !in word
    ensures HashtagDisplay("#" + word) == "#" + word
    ensures HashtagDisplay("##" + word) == "##" + word
  {
    assert ("#" + word)[0] == '#';
    assert ("##" + word)[0] == '#';
    assert ("#" + word)[1..] == word;
    assert ("##" + word)[1..] == "#" + word;
  }

  /** The image area: the placeholder exactly when the address is absent
      or empty (an empty string is falsy). */
  function ShowsImagePlaceholder(post: GeneratedPost): (r: bool)
    ensures r <==> post.imageUrl.None? || post.imageUrl.value == ""
  {
    match post.imageUrl
    case Some(url) => url == ""
    case None => true
  }

  /** Each hashtag with a `#` put in front, unconditionally. */
  function Prefixed(tags: seq<string>): (r: seq<string>)
    ensures |r| == |tags|
    ensures forall i :: 0 <= i < |r| ==> r[i] == "#" + tags[i]
  {
    seq(|tags|, i requires 0 <= i < |tags| => "#" + tags[i])
  }

  /** The clipboard text: the post text, a blank line, then the prefixed
      hashtags joined by single spaces. */
  function CopyText(post: GeneratedPost): (r: string)
    ensures post.text + "\n\n" <= r
    ensures post.hashtags == [] ==> r == post.text + "\n\n"
  {
    post.text + "\n\n" + Join(Prefixed(post.hashtags), " ")
  }

  /** The clipboard text holds every hashtag behind a `#` of its own (so a
      tag written `#ai` appears as `##ai`) and is as long as the text, the
      blank line, each tag with its `#`, and the spaces between tags. */
  lemma CopyTextContents(post: GeneratedPost, i: nat)
    requires i < |post.hashtags|
    ensures Contains(CopyText(post), "#" + post.hashtags[i])
    ensures |CopyText(post)| == |post.text| + 2 + TotalLength(post.hashtags) + 2 * |post.hashtags| - 1
  {
    var tags := Prefixed(post.hashtags);
    JoinContainsParts(tags, " ", i);
    ContainsWithin(post.text + "\n\n", Join(tags, " "), [], tags[i]);
    assert post.text + "\n\n" + Join(tags, " ") + [] == CopyText(post);
    JoinLength(tags, " ");
    PrefixedLength(post.hashtags);
  }

  /** The clipboard lists the hashtags in their order: after the text and
      the blank line, tag `i` sits behind a `#` of its own, preceded by the
      `i` earlier tags (each one longer for its `#`) and one space after
      each, and followed by a space unless it is the last. */
  lemma CopyTextLayout(post: GeneratedPost, i: nat)
    requires i < |post.hashtags|
    ensures var at := |post.text| + 2 + TotalLength(post.hashtags[..i]) + 2 * i;
      && at + |post.hashtags[i]| + 1 <= |CopyText(post)|
      && CopyText(post)[at..at + |post.hashtags[i]| + 1] == "#" + post.hashtags[i]
      && (i + 1 < |post.hashtags| ==>
            at + |post.hashtags[i]| + 1 < |CopyText(post)| && CopyText(post)[at + |post.hashtags[i]| + 1] == ' ')
  {
    var tags := Prefixed(post.hashtags);
    var head := post.text + "\n\n";
    var joined := Join(tags, " ");
    var n := |tags[i]|;
    JoinLayout(tags, " ", i);
    PrefixedOffset(post.hashtags, i);
    var off := PartOffset(tags, " ", i);
    assert CopyText(post) == head + joined;
    SliceBehind(head, joined, off, off + n);
    if i + 1 < |post.hashtags| {
      SliceBehind(head, joined, off + n, off + n + 1);
      assert joined[off + n] == joined[off + n..off + n + 1][0];
    }
  }

  /** Tag `i` starts in the joined clipboard list after the earlier tags,
      one `#` and one space for each. */
  lemma PrefixedOffset(tags: seq<string>, i: nat)
    requires i < |tags|
    ensures PartOffset(Prefixed(tags), " ", i) == TotalLength(tags[..i]) + 2 * i
  {
    assert Prefixed(tags)[..i] == Prefixed(tags[..i]);
    PrefixedLength(tags[..i]);
  }

  /** Prefixing adds one character per tag. */
  lemma {:induction false} PrefixedLength(tags: seq<string>)
    ensures TotalLength(Prefixed(tags)) == TotalLength(tags) + |tags|
    decreases |tags|
  {
    if |tags| > 0 {
      assert Prefixed(tags)[1..] == Prefixed(tags[1..]);
      PrefixedLength(tags[1..]);
    }
  }

  /** A tag that already carries its `#` ends up doubled on the clipboard
      while the card draws it once. */
  lemma DoubledHashOnClipboard(post: GeneratedPost)
    requires post.hashtags == ["#ai"]
    ensures CopyText(post) == post.text + "\n\n##ai"
    ensures HashtagDisplay(post.hashtags[0]) == "#ai"
  {
    var tags := Prefixed(post.hashtags);
    assert tags[0] == "#" + "#ai" == "##ai";
    assert tags == ["##ai"];
    HashtagDisplayExamples("ai");
    assert "#" + "ai" == "#ai";
  }

  /** The bar under the preview: the image prompt and the copy action. */
  datatype Footer = Footer(prompt: string, clipboard: string)

  /** The footer is drawn only with a post, and then carries its prompt
      and copy text. */
  function FooterOf(post: Option<GeneratedPost>): (r: Option<Footer>)
    ensures r.Some? <==> post.Some?
    ensures r.Some? ==> r.value.prompt == post.value.imagePrompt && r.value.clipboard == CopyText(post.value)
  {
    match post
    case Some(p) => Some(Footer(p.imagePrompt, CopyText(p)))
    case None => None
  }
}
