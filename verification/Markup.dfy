/** The tags of the model's output and the searches the code makes for them. Text is a sequence of
    characters; every tag starts with `<` and has no other. */
module Markup {
  import opened Basics

  type Text = seq<char>

  const TC: Text := "<tool_call>"
  const TC_END: Text := "</tool_call>"
  const FN: Text := "<function="
  const FN_END: Text := "</function>"
  const PA: Text := "<parameter="
  const PA_END: Text := "</parameter>"
  const TH: Text := "<think>"
  const TH_END: Text := "</think>"

  predicate Tag(tag: Text) {
    |tag| > 0 && tag[0] == '<' && forall i :: 1 <= i < |tag| ==> tag[i] != '<'
  }

  lemma TagsAreTags()
    ensures Tag(TC) && Tag(TC_END) && Tag(FN) && Tag(FN_END) && Tag(PA) && Tag(PA_END) && Tag(TH) && Tag(TH_END) && Tag("<")
  {
  }

  predicate StartsWith(t: Text, tag: Text) {
    |tag| <= |t| && forall i :: 0 <= i < |tag| ==> t[i] == tag[i]
  }

  /** The text after its first `n` characters. */
  function After(t: Text, n: nat): (r: Text)
    requires n <= |t|
    ensures |r| == |t| - n && forall i :: 0 <= i < |r| ==> r[i] == t[n + i]
  {
    t[n..]
  }

  function Upto(t: Text, n: nat): (r: Text)
    requires n <= |t|
    ensures |r| == n && forall i :: 0 <= i < |r| ==> r[i] == t[i]
  {
    t[..n]
  }

  /** The text before and after the first `tag`. */
  function Cut(t: Text, tag: Text): (r: Option<(Text, Text)>)
    requires tag != []
    ensures r.Some? ==> |r.value.0| + |tag| + |r.value.1| == |t|
  {
    if StartsWith(t, tag) then Some(([], After(t, |tag|)))
    else if t == [] then None
    else
      var rest := Cut(After(t, 1), tag);
      if rest.None? then None else Some(([t[0]] + rest.value.0, rest.value.1))
  }

  /** Where the first `tag` starts. */
  function Find(t: Text, tag: Text): Option<nat>
    requires tag != []
  {
    var r := Cut(t, tag);
    if r.None? then None else Some(|r.value.0|)
  }

  // ---- Concatenations.

  lemma AfterJoin(a: Text, b: Text)
    ensures After(a + b, |a|) == b && Upto(a + b, |a|) == a
  {
  }

  lemma AfterPart(a: Text, b: Text, n: nat)
    requires n <= |a|
    ensures After(a + b, n) == After(a, n) + b
  {
  }

  lemma AfterAfter(t: Text, m: nat, n: nat)
    requires m + n <= |t|
    ensures After(After(t, m), n) == After(t, m + n)
  {
  }

  lemma Assoc(a: Text, b: Text, c: Text)
    ensures (a + b) + c == a + (b + c)
  {
  }

  lemma StartsWithSelf(tag: Text, post: Text)
    ensures StartsWith(tag + post, tag) && After(tag + post, |tag|) == post
  {
  }

  /** A tag that is not in `v` does not start in `v` either when another tag follows. */
  lemma NoTagAcross(v: Text, tag: Text, next: Text, post: Text)
    requires Tag(tag) && Tag(next) && v != [] && !StartsWith(v, tag)
    ensures !StartsWith(v + next + post, tag)
  {
    var t := v + next + post;
    assert t[|v|] == next[0] == '<';
    if |tag| <= |v| {
      var i :| 0 <= i < |tag| && v[i] != tag[i];
      assert t[i] == v[i];
    } else {
      assert tag[|v|] != '<';
    }
  }

  /** The first closing tag after a value without one is the one that closes it. */
  lemma {:induction false} CutFirst(v: Text, tag: Text, post: Text)
    requires Tag(tag) && Cut(v, tag) == None
    ensures Cut(v + tag + post, tag) == Some((v, post))
    decreases |v|
  {
    hide After, StartsWith;
    if v == [] {
      assert v + tag + post == tag + post;
      StartsWithSelf(tag, post);
    } else {
      NoTagAcross(v, tag, tag, post);
      CutFirst(After(v, 1), tag, post);
      Assoc(v, tag, post);
      Assoc(After(v, 1), tag, post);
      AfterPart(v, tag + post, 1);
      var r := Cut(After(v, 1), tag);
      assert v == [v[0]] + After(v, 1);
    }
  }

  lemma Front(t: Text, tag: Text)
    requires StartsWith(t, tag)
    ensures t == tag + After(t, |tag|)
  {
  }

  lemma HeadTail(t: Text)
    requires t != []
    ensures t == [t[0]] + After(t, 1)
  {
  }

  /** Cutting loses nothing. */
  lemma {:induction false} CutParts(t: Text, tag: Text)
    requires tag != [] && Cut(t, tag).Some?
    ensures t == Cut(t, tag).value.0 + tag + Cut(t, tag).value.1
    decreases |t|
  {
    hide After, StartsWith;
    if StartsWith(t, tag) {
      Front(t, tag);
      assert [] + tag == tag;
    } else {
      CutParts(After(t, 1), tag);
      HeadTail(t);
      var (a, b) := Cut(After(t, 1), tag).value;
      Assoc([t[0]], a, tag);
      Assoc([t[0]], a + tag, b);
    }
  }
}
