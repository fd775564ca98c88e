/** Context assembly: the retrieved documents, in retrieval order, rendered as
    numbered sections attributed to their source and page
    (src/app/core/rag_chain.py:34-38, inlined again at app/core/rag_chain.py:59-63). */
module Context {
  import opened Documents

  /** Placeholder for a document without `source` metadata ("unknown source"). */
  const UnknownSource: string := "Неизвестный источник"
  /** Placeholder for a document without `page` metadata. */
  const UnknownPage: string := "?"

  function Digit(d: nat): (c: char)
    requires d < 10
    ensures '0' <= c <= '9'
  {
    (('0' as int) + d) as char
  }

  function DigitValue(c: char): (d: nat)
    requires '0' <= c <= '9'
    ensures d < 10
  {
    (c as int) - ('0' as int)
  }

  predicate IsDecimal(s: string)
  {
    forall i :: 0 <= i < |s| ==> '0' <= s[i] <= '9'
  }

  /** The decimal text an f-string renders for a natural number. */
  function NatToString(n: nat): (s: string)
    ensures |s| > 0 && IsDecimal(s)
    ensures s[0] == '0' ==> n == 0
    decreases n
  {
    if n < 10 then [Digit(n)]
    else NatToString(n / 10) + [Digit(n % 10)]
  }

  /** Reads a decimal numeral back; the inverse of NatToString. */
  function ParseDecimal(s: string): nat
    requires IsDecimal(s)
  {
    if s == [] then 0
    else ParseDecimal(s[..|s| - 1]) * 10 + DigitValue(s[|s| - 1])
  }

  /** Section ranks are rendered unambiguously: the numeral reads back as the rank. */
  lemma {:induction false} ParseNatToString(n: nat)
    ensures ParseDecimal(NatToString(n)) == n
    decreases n
  {
    var s := NatToString(n);
    if n >= 10 {
      ParseNatToString(n / 10);
      assert s[..|s| - 1] == NatToString(n / 10);
    } else {
      assert s[..|s| - 1] == [];
    }
  }

  function SourceOf(d: Document): string
  {
    Get(d.metadata, "source", UnknownSource)
  }

  function PageOf(d: Document): string
  {
    Get(d.metadata, "page", UnknownPage)
  }

  /** The header line of the section ranked `rank` (1-based). */
  function Header(rank: nat, source: string, page: string): string
  {
    "\n--- Отрывок " + NatToString(rank) + " (Источник: " + source + ", Стр: " + page + ") ---\n"
  }

  /** The section of the document at 0-based position `index`. */
  function Section(index: nat, d: Document): string
  {
    Header(index + 1, SourceOf(d), PageOf(d)) + d.pageContent + "\n"
  }

  /** The sections of `docs`, the first one at 0-based position `start`. */
  function RenderFrom(docs: seq<Document>, start: nat): string
    decreases |docs|
  {
    if docs == [] then "" else Section(start, docs[0]) + RenderFrom(docs[1..], start + 1)
  }

  /** The whole context block for the documents of one query. */
  function Render(docs: seq<Document>): string
  {
    RenderFrom(docs, 0)
  }

  /** Rendering a concatenation renders the second part after the first, with
      its ranks continuing where the first part's stop. */
  lemma {:induction false} RenderFromAppend(a: seq<Document>, b: seq<Document>, start: nat)
    ensures RenderFrom(a + b, start) == RenderFrom(a, start) + RenderFrom(b, start + |a|)
    decreases |a|
  {
    if a == [] {
      assert a + b == b;
    } else {
      assert (a + b)[0] == a[0];
      assert (a + b)[1..] == a[1..] + b;
      RenderFromAppend(a[1..], b, start + 1);
    }
  }

  /** Appending one document appends its section, ranked after all earlier ones. */
  lemma {:induction false} RenderSnoc(docs: seq<Document>, d: Document)
    ensures Render(docs + [d]) == Render(docs) + Section(|docs|, d)
  {
    RenderFromAppend(docs, [d], 0);
    assert RenderFrom([d], |docs|) == Section(|docs|, d) + RenderFrom([], |docs| + 1);
  }

  /** The document at position k contributes the (k+1)-th section, preceded by
      exactly the sections of the documents before it: no document is dropped,
      moved or renumbered. */
  lemma {:induction false} RenderSplit(docs: seq<Document>, k: nat)
    requires k < |docs|
    ensures Render(docs) == Render(docs[..k]) + Section(k, docs[k]) + RenderFrom(docs[k + 1..], k + 1)
  {
    assert docs == docs[..k] + docs[k..];
    RenderFromAppend(docs[..k], docs[k..], 0);
    assert docs[k..][1..] == docs[k + 1..];
  }

  /** The context is empty exactly when no document was retrieved. */
  lemma {:induction false} RenderEmptyIff(docs: seq<Document>)
    ensures Render(docs) == "" <==> docs == []
  {
    if docs != [] {
      assert |Section(0, docs[0])| > 0;
    }
  }

  /** Two documents, the second without metadata: ranks 1 and 2, with the
      placeholders in the second header. */
  lemma ScenarioPlaceholders()
    ensures Render([Document("alpha", map["source" := "a.pdf", "page" := "3"]), Document("beta", map[])])
         == Header(1, "a.pdf", "3") + "alpha" + "\n" + Header(2, UnknownSource, UnknownPage) + "beta" + "\n"
  {
    var d1 := Document("alpha", map["source" := "a.pdf", "page" := "3"]);
    var d2 := Document("beta", map[]);
    assert SourceOf(d1) == "a.pdf" && PageOf(d1) == "3";
    assert SourceOf(d2) == UnknownSource && PageOf(d2) == UnknownPage;
    RenderSnoc([d1], d2);
    RenderSnoc([], d1);
    assert [d1] + [d2] == [d1, d2];
    assert [] + [d1] == [d1];
    assert Render([]) == "";
    assert Render([d1]) == Section(0, d1);
    assert Section(0, d1) == Header(1, "a.pdf", "3") + "alpha" + "\n";
    assert Section(1, d2) == Header(2, UnknownSource, UnknownPage) + "beta" + "\n";
  }

  /** The loop that appends one section per retrieved document. */
  method BuildContext(docs: seq<Document>) returns (context: string)
    ensures context == Render(docs)
  {
    context := "";
    for i := 0 to |docs|
      invariant context == Render(docs[..i])
    {
      var d := docs[i];
      var source := Get(d.metadata, "source", UnknownSource);
      var page := Get(d.metadata, "page", UnknownPage);
      context := context + Header(i + 1, source, page) + d.pageContent + "\n";
      RenderSnoc(docs[..i], d);
      assert docs[..i + 1] == docs[..i] + [d];
    }
    assert docs[..|docs|] == docs;
  }
}
