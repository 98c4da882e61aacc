/**
 * The getNegotiationInsights task: a company's FAQs with the HTML tags of
 * every answer removed, as `answer.replace(/<[^>]*>?/g, "")` does. Each
 * match starts at a '<' and runs through the next '>', or to the end of the
 * answer when no '>' follows; a '>' outside a match is kept.
 */
module NegotiationInsights {
  import opened Wrappers
  import opened PublicApi

  /** What follows a tag's '<': everything after the next '>', or nothing if there is none. */
  function SkipTag(s: string): (r: string)
    ensures |r| <= |s|
    ensures r == s[|s| - |r|..]
  {
    if |s| == 0 then ""
    else if s[0] == '>' then s[1..]
    else SkipTag(s[1..])
  }

  /** The answer with every match of `<[^>]*>?` deleted, scanning left to right. */
  function StripTags(s: string): (r: string)
    ensures |r| <= |s|
    decreases |s|
  {
    if |s| == 0 then ""
    else if s[0] == '<' then StripTags(SkipTag(s[1..]))
    else [s[0]] + StripTags(s[1..])
  }

  /** A stripped answer holds no '<'. */
  lemma {:induction false} StripTagsNoOpen(s: string)
    ensures '<' !in StripTags(s)
    decreases |s|
  {
    if |s| == 0 {
    } else if s[0] == '<' {
      StripTagsNoOpen(SkipTag(s[1..]));
    } else {
      StripTagsNoOpen(s[1..]);
    }
  }

  /** Text before the first '<' is kept as it is. */
  lemma {:induction false} StripTagsPlainPrefix(plain: string, t: string)
    requires '<' !in plain
    ensures StripTags(plain + t) == plain + StripTags(t)
    decreases |plain|
  {
    if |plain| > 0 {
      assert (plain + t)[0] == plain[0];
      assert (plain + t)[1..] == plain[1..] + t;
      StripTagsPlainPrefix(plain[1..], t);
      assert plain == [plain[0]] + plain[1..];
    } else {
      assert plain + t == t;
    }
  }

  /** An answer without '<' is unchanged, whatever '>' it holds. */
  lemma StripTagsUnchanged(s: string)
    requires '<' !in s
    ensures StripTags(s) == s
  {
    StripTagsPlainPrefix(s, "");
    assert s + "" == s;
  }

  /** A closed tag goes with its '<' and '>', and the scan resumes after it. */
  lemma {:induction false} StripClosedTag(inner: string, t: string)
    requires '>' !in inner
    ensures StripTags("<" + inner + ">" + t) == StripTags(t)
  {
    var s := "<" + inner + ">" + t;
    assert s[1..] == inner + ">" + t;
    SkipClosedTag(inner, t);
  }

  lemma {:induction false} SkipClosedTag(inner: string, t: string)
    requires '>' !in inner
    ensures SkipTag(inner + ">" + t) == t
    decreases |inner|
  {
    if |inner| == 0 {
      assert inner + ">" + t == ">" + t;
    } else {
      assert (inner + ">" + t)[0] == inner[0];
      assert (inner + ">" + t)[1..] == inner[1..] + ">" + t;
      SkipClosedTag(inner[1..], t);
    }
  }

  /** An unclosed tag runs to the end of the answer. */
  lemma {:induction false} StripUnclosedTag(inner: string)
    requires '>' !in inner
    ensures StripTags("<" + inner) == ""
  {
    assert ("<" + inner)[1..] == inner;
    SkipUnclosed(inner);
  }

  lemma {:induction false} SkipUnclosed(inner: string)
    requires '>' !in inner
    ensures SkipTag(inner) == ""
    decreases |inner|
  {
    if |inner| > 0 {
      SkipUnclosed(inner[1..]);
    }
  }

  /** Stripping twice is stripping once. */
  lemma StripTagsIdempotent(s: string)
    ensures StripTags(StripTags(s)) == StripTags(s)
  {
    StripTagsNoOpen(s);
    StripTagsUnchanged(StripTags(s));
  }

  /** A closed tag in the middle of an answer is removed. */
  lemma StripClosedExample()
    ensures StripTags("a<b>c") == "ac"
  {
    assert "a<b>c" == "a" + ("<" + "b" + ">" + "c");
    StripTagsPlainPrefix("a", "<b>c");
    StripClosedTag("b", "c");
    StripTagsUnchanged("c");
  }

  /** An unclosed tag removes the rest of the answer. */
  lemma StripUnclosedExample()
    ensures StripTags("a<b") == "a"
  {
    var tag := "<" + "b";
    StripUnclosedTag("b");
    assert StripTags(tag) == "";
    StripTagsPlainPrefix("a", tag);
    assert StripTags("a" + tag) == "a";
    assert "a" + tag == "a<b";
  }

  /** The FAQ payload with every answer stripped; FAQ count, order and every other field kept. */
  function StripFaqs(page: FaqPage): (r: FaqPage)
    ensures r.rest == page.rest && |r.faqs| == |page.faqs|
    ensures forall i :: 0 <= i < |r.faqs| ==>
              r.faqs[i].rest == page.faqs[i].rest && r.faqs[i].answer == StripTags(page.faqs[i].answer)
  {
    page.(faqs := seq(|page.faqs|, i requires 0 <= i < |page.faqs| =>
      page.faqs[i].(answer := StripTags(page.faqs[i].answer))))
  }

  function HandleGetNegotiationInsights(api: Api, companyId: string): (r: Traced<Result<FaqPage>>)
    ensures r.calls == [GetFaqs(companyId)]
    ensures r.result == Respond(api.getFaqs(companyId), StripFaqs, MessageOf)
  {
    Traced(Respond(api.getFaqs(companyId), StripFaqs, MessageOf), [GetFaqs(companyId)])
  }

  /** No answer the task returns holds a '<'. */
  lemma InsightsHaveNoTags(api: Api, companyId: string)
    ensures var r := HandleGetNegotiationInsights(api, companyId).result;
            r.Success? ==> forall i :: 0 <= i < |r.value.faqs| ==> '<' !in r.value.faqs[i].answer
  {
    var r := HandleGetNegotiationInsights(api, companyId).result;
    if r.Success? {
      var page := api.getFaqs(companyId).data;
      forall i | 0 <= i < |r.value.faqs| ensures '<' !in r.value.faqs[i].answer {
        StripTagsNoOpen(page.faqs[i].answer);
      }
    }
  }
}
