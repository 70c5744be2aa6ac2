/** Payment links: the link record, the list reducer, the short-URL slug
    builder and the conversion-rate text. */
module PaymentLinksData {

  import opened Wrappers
  import opened Seqs
  import opened Text

  datatype LinkStatus = LinkActive | Expired | Deactivated

  /** The string value a link's status has in the data (`'active'`, ...). */
  function LinkStatusName(s: LinkStatus): string
  {
    match s
    case LinkActive => "active"
    case Expired => "expired"
    case Deactivated => "deactivated"
  }

  datatype LinkCustomer = LinkCustomer(name: string, email: string, phone: string)

  datatype PaymentLink = PaymentLink(
    id: string,
    title: string,
    description: string,
    amount: int,
    status: LinkStatus,
    created: string,
    createdAt: int,              // the creation instant, as a clock reading
    views: int,
    paid: int,
    shortUrl: string,
    expiryDate: Option<string>,
    partialPayments: bool,
    customer: LinkCustomer,
    notes: string)

  /** `Partial<PaymentLink>`. */
  datatype LinkPatch = LinkPatch(
    id: Option<string>,
    title: Option<string>,
    description: Option<string>,
    amount: Option<int>,
    status: Option<LinkStatus>,
    created: Option<string>,
    createdAt: Option<int>,
    views: Option<int>,
    paid: Option<int>,
    shortUrl: Option<string>,
    expiryDate: Option<Option<string>>,
    partialPayments: Option<bool>,
    customer: Option<LinkCustomer>,
    notes: Option<string>)

  /** The list reducer's actions; `OtherLinkAction` stands for any other action object. */
  datatype LinkAction =
    | AddLink(link: PaymentLink)
    | UpdateLink(linkKey: string, updates: LinkPatch)
    | ToggleStatus(toggledId: string, newStatus: LinkStatus)
    | OtherLinkAction

  /** `{ ...link, ...updates }`. */
  function MergeLink(l: PaymentLink, p: LinkPatch): PaymentLink
  {
    PaymentLink(p.id.GetOr(l.id), p.title.GetOr(l.title), p.description.GetOr(l.description),
                p.amount.GetOr(l.amount), p.status.GetOr(l.status), p.created.GetOr(l.created),
                p.createdAt.GetOr(l.createdAt), p.views.GetOr(l.views), p.paid.GetOr(l.paid),
                p.shortUrl.GetOr(l.shortUrl), p.expiryDate.GetOr(l.expiryDate),
                p.partialPayments.GetOr(l.partialPayments), p.customer.GetOr(l.customer),
                p.notes.GetOr(l.notes))
  }

  function LinkIdIs(key: string): PaymentLink -> bool { (l: PaymentLink) => l.id == key }
  function MergeLinkWith(p: LinkPatch): PaymentLink -> PaymentLink { (l: PaymentLink) => MergeLink(l, p) }
  function SetStatus(s: LinkStatus): PaymentLink -> PaymentLink { (l: PaymentLink) => l.(status := s) }

  /** `paymentLinksReducer`. */
  function ReduceLinks(links: seq<PaymentLink>, a: LinkAction): (r: seq<PaymentLink>)
    ensures a.AddLink? ==> |r| == |links| + 1 && r[0] == a.link && r[1..] == links
    ensures a.UpdateLink? ==>
      && |r| == |links|
      && forall i :: 0 <= i < |links| ==>
           r[i] == if links[i].id == a.linkKey then MergeLink(links[i], a.updates) else links[i]
    ensures a.ToggleStatus? ==>
      && |r| == |links|
      && forall i :: 0 <= i < |links| ==>
           && r[i].(status := links[i].status) == links[i]
           && r[i].status == if links[i].id == a.toggledId then a.newStatus else links[i].status
    ensures a.OtherLinkAction? ==> r == links
  {
    match a
    case AddLink(l) => [l] + links
    case UpdateLink(key, updates) => MapMatching(links, LinkIdIs(key), MergeLinkWith(updates))
    case ToggleStatus(key, s) => MapMatching(links, LinkIdIs(key), SetStatus(s))
    case OtherLinkAction => links
  }

  /** Toggling or updating twice with the same payload is toggling or updating once. */
  lemma ReduceLinksTwice(links: seq<PaymentLink>, a: LinkAction)
    requires a.UpdateLink? || a.ToggleStatus?
    ensures ReduceLinks(ReduceLinks(links, a), a) == ReduceLinks(links, a)
  {
    match a
    case UpdateLink(key, updates) => MapMatchingTwice(links, LinkIdIs(key), MergeLinkWith(updates));
    case ToggleStatus(key, s) => MapMatchingTwice(links, LinkIdIs(key), SetStatus(s));
  }

  // ---------------------------------------------------------------------
  // Short URLs
  // ---------------------------------------------------------------------

  const ShortUrlPrefix: string := "rzp.io/l/"
  const MaxSlugLength: nat := 20

  /** The character class `[a-z0-9]`. */
  predicate IsSlugChar(c: char) {
    ('a' <= c <= 'z') || ('0' <= c <= '9')
  }

  /** Drop the leading run of characters outside `[a-z0-9]`. */
  function DropNonSlug(s: string): (r: string)
    ensures |r| <= |s|
    ensures |s| > 0 && !IsSlugChar(s[0]) ==> |r| < |s|
  {
    if |s| > 0 && !IsSlugChar(s[0]) then DropNonSlug(s[1..]) else s
  }

  /** What is dropped is exactly the leading run: the rest is a suffix that
      is empty or starts with a slug character, and nothing before it is one. */
  lemma {:induction false} DropNonSlugSpec(s: string)
    ensures var r := DropNonSlug(s);
      && r == s[|s| - |r|..]
      && (|r| == 0 || IsSlugChar(r[0]))
      && forall k :: 0 <= k < |s| - |r| ==> !IsSlugChar(s[k])
    decreases |s|
  {
    if |s| > 0 && !IsSlugChar(s[0]) {
      DropNonSlugSpec(s[1..]);
      assert forall k :: 1 <= k < |s| ==> s[k] == s[1..][k - 1];
    }
  }

  /** `s.replace(/[^a-z0-9]+/g, '-')`: each maximal run of other characters becomes one '-'. */
  function ReplaceRuns(s: string): string
    decreases |s|
  {
    if |s| == 0 then []
    else if IsSlugChar(s[0]) then [s[0]] + ReplaceRuns(s[1..])
    else "-" + ReplaceRuns(DropNonSlug(s))
  }

  /** Only `[a-z0-9]` and '-', and no '-' directly after another. */
  ghost predicate WellFormedSlug(s: string) {
    && (forall k :: 0 <= k < |s| ==> IsSlugChar(s[k]) || s[k] == '-')
    && (forall k :: 0 <= k < |s| - 1 ==> !(s[k] == '-' && s[k + 1] == '-'))
  }

  /** Joining two well-formed slugs that do not meet '-' to '-' is well-formed. */
  lemma WellFormedConcat(a: string, b: string)
    requires WellFormedSlug(a) && WellFormedSlug(b)
    requires |a| == 0 || |b| == 0 || a[|a| - 1] != '-' || b[0] != '-'
    ensures WellFormedSlug(a + b)
  {
    var ab := a + b;
    forall k | 0 <= k < |ab| - 1 ensures !(ab[k] == '-' && ab[k + 1] == '-') {
      if k + 1 < |a| {
        assert ab[k] == a[k] && ab[k + 1] == a[k + 1];
      } else if k >= |a| {
        assert ab[k] == b[k - |a|] && ab[k + 1] == b[k + 1 - |a|];
      }
    }
  }

  /** The replacement only ever produces a well-formed slug, and its first
      character is the input's first when that is a slug character. */
  lemma {:induction false} ReplaceRunsWellFormed(s: string)
    ensures WellFormedSlug(ReplaceRuns(s))
    ensures |s| > 0 && IsSlugChar(s[0]) ==> |ReplaceRuns(s)| > 0 && ReplaceRuns(s)[0] == s[0]
    decreases |s|
  {
    if |s| > 0 {
      if IsSlugChar(s[0]) {
        ReplaceRunsWellFormed(s[1..]);
        WellFormedConcat([s[0]], ReplaceRuns(s[1..]));
      } else {
        var rest := DropNonSlug(s);
        DropNonSlugSpec(s);
        ReplaceRunsWellFormed(rest);
        WellFormedConcat("-", ReplaceRuns(rest));
      }
    }
  }

  predicate NotHyphen(c: char) { c != '-' }

  /** `s` with every '-' removed. */
  function WithoutHyphens(s: string): string
  {
    Filter(s, NotHyphen)
  }

  /** Nothing of `[a-z0-9]` is lost or reordered: dropping the hyphens from
      the replaced text leaves exactly the slug characters of the input. */
  lemma {:induction false} ReplaceRunsKeepsSlugChars(s: string)
    ensures WithoutHyphens(ReplaceRuns(s)) == Filter(s, IsSlugChar)
    decreases |s|
  {
    if |s| > 0 {
      if IsSlugChar(s[0]) {
        ReplaceRunsKeepsSlugChars(s[1..]);
        KeepsSlugCharsStep(s);
      } else {
        ReplaceRunsKeepsSlugChars(DropNonSlug(s));
        KeepsSlugCharsRunStep(s);
      }
    }
  }

  lemma KeepsSlugCharsStep(s: string)
    requires |s| > 0 && IsSlugChar(s[0])
    requires WithoutHyphens(ReplaceRuns(s[1..])) == Filter(s[1..], IsSlugChar)
    ensures WithoutHyphens(ReplaceRuns(s)) == Filter(s, IsSlugChar)
  {
    var head, tail := [s[0]], s[1..];
    assert s == head + tail;
    assert ReplaceRuns(s) == head + ReplaceRuns(tail);
    FilterConcat(head, tail, IsSlugChar);
    FilterConcat(head, ReplaceRuns(tail), NotHyphen);
    FilterSingle(s[0], IsSlugChar);
    FilterSingle(s[0], NotHyphen);
  }

  lemma KeepsSlugCharsRunStep(s: string)
    requires |s| > 0 && !IsSlugChar(s[0])
    requires WithoutHyphens(ReplaceRuns(DropNonSlug(s))) == Filter(DropNonSlug(s), IsSlugChar)
    ensures WithoutHyphens(ReplaceRuns(s)) == Filter(s, IsSlugChar)
  {
    var rest := DropNonSlug(s);
    assert ReplaceRuns(s) == ['-'] + ReplaceRuns(rest);
    LeadingHyphenDropped(ReplaceRuns(rest));
    DroppedRunHasNoSlugChars(s);
  }

  lemma LeadingHyphenDropped(r: string)
    ensures WithoutHyphens(['-'] + r) == WithoutHyphens(r)
  {
    FilterConcat(['-'], r, NotHyphen);
    FilterSingle('-', NotHyphen);
  }

  lemma DroppedRunHasNoSlugChars(s: string)
    ensures Filter(s, IsSlugChar) == Filter(DropNonSlug(s), IsSlugChar)
  {
    DropNonSlugSpec(s);
    FilterSkipsPrefix(s, DropNonSlug(s));
  }

  /** Filtering skips a prefix that holds no slug character. */
  lemma FilterSkipsPrefix(s: string, rest: string)
    requires |rest| <= |s| && rest == s[|s| - |rest|..]
    requires forall k :: 0 <= k < |s| - |rest| ==> !IsSlugChar(s[k])
    ensures Filter(s, IsSlugChar) == Filter(rest, IsSlugChar)
  {
    var cut := s[..|s| - |rest|];
    assert NoSlugChars(cut) by {
      forall i | 0 <= i < |cut| ensures !IsSlugChar(cut[i]) {
        assert cut[i] == s[i];
      }
    }
    assert s == cut + rest;
    FilterSkipsRun(cut, rest);
  }

  lemma FilterSkipsRun(run: string, rest: string)
    requires NoSlugChars(run)
    ensures Filter(run + rest, IsSlugChar) == Filter(rest, IsSlugChar)
  {
    FilterKeepsNone(run, IsSlugChar);
    FilterConcat(run, rest, IsSlugChar);
    assert [] + Filter(rest, IsSlugChar) == Filter(rest, IsSlugChar);
  }

  /** No character of `s` is in `[a-z0-9]`. */
  predicate NoSlugChars(s: string) {
    forall k :: 0 <= k < |s| ==> !IsSlugChar(s[k])
  }

  /** A run of other characters in front of `b` is dropped whole, and no more. */
  lemma {:induction false} DropNonSlugRun(run: string, b: string)
    requires NoSlugChars(run)
    requires |b| == 0 || IsSlugChar(b[0])
    ensures DropNonSlug(run + b) == b
    decreases |run|
  {
    if |run| > 0 {
      assert (run + b)[1..] == run[1..] + b;
      DropNonSlugRun(run[1..], b);
    } else {
      assert run + b == b;
    }
  }

  /** Dropping the leading run of a text that ends in a slug character stops
      inside that text, so whatever follows it is kept. */
  lemma {:induction false} DropNonSlugAppend(a: string, t: string)
    requires |a| > 0 && IsSlugChar(a[|a| - 1])
    ensures |DropNonSlug(a)| > 0
    ensures DropNonSlug(a + t) == DropNonSlug(a) + t
    decreases |a|
  {
    if !IsSlugChar(a[0]) {
      assert |a| > 1;
      assert (a + t)[1..] == a[1..] + t;
      DropNonSlugAppend(a[1..], t);
    }
  }

  /** No run crosses the end of a text that ends in a slug character, so
      the replacement of the joined text is the two replacements joined. */
  lemma {:induction false} ReplaceRunsSplit(a: string, t: string)
    requires |a| == 0 || IsSlugChar(a[|a| - 1])
    ensures ReplaceRuns(a + t) == ReplaceRuns(a) + ReplaceRuns(t)
    decreases |a|
  {
    if |a| == 0 {
      assert a + t == t;
    } else if IsSlugChar(a[0]) {
      ReplaceRunsSplit(a[1..], t);
      SlugHeadStep(a, t, ReplaceRuns(t));
    } else {
      var rest := DropNonSlug(a);
      DropNonSlugAppend(a, t);
      DropNonSlugSpec(a);
      assert rest[|rest| - 1] == a[|a| - 1];
      ReplaceRunsSplit(rest, t);
      RunHeadStep(a, t, ReplaceRuns(t));
    }
  }

  /** Each maximal run of other characters becomes exactly one '-': between a
      text ending in a slug character (or nothing) and one starting with a
      slug character (or nothing), a non-empty run is replaced by a single
      '-', and each side is replaced on its own. */
  lemma ReplaceRunsOfRun(a: string, run: string, b: string)
    requires |a| == 0 || IsSlugChar(a[|a| - 1])
    requires |run| > 0 && NoSlugChars(run)
    requires |b| == 0 || IsSlugChar(b[0])
    ensures ReplaceRuns(a + run + b) == ReplaceRuns(a) + "-" + ReplaceRuns(b)
  {
    ReplaceRunsSplit(a, run + b);
    LeadingRun(run, b);
    assert a + run + b == a + (run + b);
    Regroup(ReplaceRuns(a), "-", ReplaceRuns(b));
  }

  /** A leading run becomes one '-'. */
  lemma LeadingRun(run: string, b: string)
    requires |run| > 0 && NoSlugChars(run)
    requires |b| == 0 || IsSlugChar(b[0])
    ensures ReplaceRuns(run + b) == "-" + ReplaceRuns(b)
  {
    assert (run + b)[0] == run[0];
    DropNonSlugRun(run, b);
  }

  /** Concatenation regrouped, away from any function that would unfold. */
  lemma Regroup(p: string, x: string, tail: string)
    ensures p + (x + tail) == (p + x) + tail
  {
  }

  /** The step of `ReplaceRunsSplit` where `a` starts with a slug character. */
  lemma SlugHeadStep(a: string, t: string, tail: string)
    requires |a| > 0 && IsSlugChar(a[0])
    requires ReplaceRuns(a[1..] + t) == ReplaceRuns(a[1..]) + tail
    ensures ReplaceRuns(a + t) == ReplaceRuns(a) + tail
  {
    calc {
      ReplaceRuns(a + t);
    == { assert (a + t)[0] == a[0]; assert (a + t)[1..] == a[1..] + t; }
      [a[0]] + ReplaceRuns(a[1..] + t);
    ==
      [a[0]] + (ReplaceRuns(a[1..]) + tail);
    == { Regroup([a[0]], ReplaceRuns(a[1..]), tail); }
      ([a[0]] + ReplaceRuns(a[1..])) + tail;
    ==
      ReplaceRuns(a) + tail;
    }
  }

  /** The step of `ReplaceRunsSplit` where `a` starts with a run that ends inside it. */
  lemma RunHeadStep(a: string, t: string, tail: string)
    requires |a| > 0 && !IsSlugChar(a[0])
    requires DropNonSlug(a + t) == DropNonSlug(a) + t
    requires ReplaceRuns(DropNonSlug(a) + t) == ReplaceRuns(DropNonSlug(a)) + tail
    ensures ReplaceRuns(a + t) == ReplaceRuns(a) + tail
  {
    calc {
      ReplaceRuns(a + t);
    == { assert (a + t)[0] == a[0]; }
      "-" + ReplaceRuns(DropNonSlug(a) + t);
    ==
      "-" + (ReplaceRuns(DropNonSlug(a)) + tail);
    == { Regroup("-", ReplaceRuns(DropNonSlug(a)), tail); }
      ("-" + ReplaceRuns(DropNonSlug(a))) + tail;
    ==
      ReplaceRuns(a) + tail;
    }
  }

  /** A well-formed slug is its own replacement. */
  lemma {:induction false} ReplaceRunsOfSlug(s: string)
    requires WellFormedSlug(s)
    requires |s| == 0 || IsSlugChar(s[0])
    ensures ReplaceRuns(s) == s
    decreases |s|
  {
    if |s| > 0 {
      var t := s[1..];
      assert ReplaceRuns(s) == [s[0]] + ReplaceRuns(t);
      if |t| > 0 && t[0] == '-' {
        var u := t[1..];
        assert DropNonSlug(t) == u;
        assert ReplaceRuns(t) == "-" + ReplaceRuns(u);
        if |u| > 0 {
          assert WellFormedSlug(u);
          ReplaceRunsOfSlug(u);
        }
        assert t == "-" + u;
      } else if |t| > 0 {
        ReplaceRunsOfSlug(t);
      }
      assert s == [s[0]] + t;
    }
  }

  /** The slug `generateShortUrl` builds from a title. */
  function Slug(title: string): (r: string)
    ensures |r| <= MaxSlugLength
    ensures WellFormedSlug(r)
  {
    ReplaceRunsWellFormed(Lower(title));
    Take(ReplaceRuns(Lower(title)), MaxSlugLength)
  }

  /** `generateShortUrl`: the fixed prefix followed by the slug. */
  function GenerateShortUrl(title: string): (r: string)
    ensures |ShortUrlPrefix| <= |r| <= |ShortUrlPrefix| + MaxSlugLength
    ensures r[..|ShortUrlPrefix|] == ShortUrlPrefix
    ensures WellFormedSlug(r[|ShortUrlPrefix|..])
  {
    var slug := Slug(title);
    assert (ShortUrlPrefix + slug)[|ShortUrlPrefix|..] == slug;
    ShortUrlPrefix + slug
  }

  /** A title that is already a short lower-case slug is kept as it is;
      in particular building a slug from a slug changes nothing. */
  lemma SlugOfSlug(title: string)
    requires WellFormedSlug(title) && |title| <= MaxSlugLength
    requires |title| == 0 || IsSlugChar(title[0])
    ensures Slug(title) == title
  {
    assert Lower(title) == title;
    ReplaceRunsOfSlug(title);
  }

  // ---------------------------------------------------------------------
  // Conversion rate
  // ---------------------------------------------------------------------

  /** What `getConversionRate` shows: the literal text for a link nobody has
      viewed, otherwise the percentage that `toFixed(1)` would format. */
  datatype ConversionRate = Shown(text: string) | Percentage(percent: real)

  function GetConversionRate(paid: int, views: int): (r: ConversionRate)
    ensures views == 0 <==> r == Shown("0.0")
    ensures views != 0 ==> r.Percentage? && r.percent * (views as real) == (paid as real) * 100.0
    ensures views != 0 && paid == 0 ==> r == Percentage(0.0)
  {
    if views == 0 then Shown("0.0") else Percentage(((paid as real) / (views as real)) * 100.0)
  }
}
