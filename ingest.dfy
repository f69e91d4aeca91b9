/** Turning an uploaded PDF into text (app.py:96-103). The PDF reader is not
    modelled: its output is the sequence of what `page.extract_text()`
    gave for each page, `None` for a page that yields no text. */
module Ingest {
  import opened Wrappers
  import opened Words

  /** `page.extract_text() or ""`: a page without text contributes "". */
  function PageText(page: Option<string>): (r: string)
    ensures page.None? ==> r == ""
    ensures page.Some? ==> r == page.value
  {
    page.GetOr("")
  }

  /** The page texts in page order, with nothing between them; the first
      page's text opens the document. */
  function ConcatPages(pages: seq<Option<string>>): (r: string)
    ensures pages != [] ==> PageText(pages[0]) <= r
  {
    if pages == [] then ""
    else ConcatPages(pages[..|pages| - 1]) + PageText(pages[|pages| - 1])
  }

  /** The loop of app.py:97-99, which grows `text` page by page. */
  method ExtractText(pages: seq<Option<string>>) returns (text: string)
    ensures text == ConcatPages(pages)
  {
    text := "";
    for i := 0 to |pages|
      invariant text == ConcatPages(pages[..i])
    {
      assert pages[..i + 1][..i] == pages[..i];
      text := text + PageText(pages[i]);
    }
    assert pages[..|pages|] == pages;
  }

  /** Concatenating two runs of pages concatenates their texts. */
  lemma {:induction false} ConcatPagesAppend(ps: seq<Option<string>>, qs: seq<Option<string>>)
    ensures ConcatPages(ps + qs) == ConcatPages(ps) + ConcatPages(qs)
    decreases |qs|
  {
    if qs == [] {
      assert ps + qs == ps;
    } else {
      var front := qs[..|qs| - 1];
      assert (ps + qs)[..|ps + qs| - 1] == ps + front;
      ConcatPagesAppend(ps, front);
    }
  }

  /** The sum of the word counts of the pages taken one by one. */
  function SumPageWords(pages: seq<Option<string>>): nat {
    if pages == [] then 0
    else SumPageWords(pages[..|pages| - 1]) + CountWords(PageText(pages[|pages| - 1]))
  }

  /** Pages are glued without a separator, so a word split across a page
      boundary is counted once: the document never has more words than its
      pages counted separately. */
  lemma {:induction false} PageWordsBound(pages: seq<Option<string>>)
    ensures CountWords(ConcatPages(pages)) <= SumPageWords(pages)
  {
    if pages != [] {
      var front := pages[..|pages| - 1];
      PageWordsBound(front);
      CountWordsConcat(ConcatPages(front), PageText(pages[|pages| - 1]));
    }
  }

  /** A word split over two pages ("Hel" and "lo") counts once, though
      each page alone holds one word. */
  lemma SplitWordCountsOnce()
    ensures var pages := [Some("Hel"), Some("lo")];
      CountWords(ConcatPages(pages)) == 1 && SumPageWords(pages) == 2
  {
    var pages := [Some("Hel"), Some("lo")];
    assert pages[..1] == [Some("Hel")];
    assert [Some("Hel")][..0] == [];
    assert ConcatPages(pages) == "Hello";
    OneWord("Hello");
    OneWord("Hel");
    OneWord("lo");
  }

  lemma ThreePages(a: string, b: string, c: string)
    ensures ConcatPages([Some(a), Some(b), Some(c)]) == a + b + c
  {
    var pages := [Some(a), Some(b), Some(c)];
    assert pages[..2] == [Some(a), Some(b)];
    assert pages[..2][..1] == [Some(a)];
    assert [Some(a)][..0] == [];
    assert ConcatPages([Some(a)]) == "" + a == a;
  }

  /** A page reading "<word> <word>" has two words. */
  lemma TwoWordPage(w1: string, sp: string, w2: string)
    requires w1 != [] && AllWordChars(w1) && w2 != [] && AllWordChars(w2)
    requires sp != [] && NoWordChars(sp)
    ensures CountWords(w1 + sp + w2) == 2
  {
    assert w1 + sp + w2 == w1 + (sp + w2);
    OneWord(w1);
    OneWord(w2);
    CountWordsZero(sp);
    CountWordsConcat(sp, w2);
    CountWordsConcat(w1, sp + w2);
  }

  /** Three pages that each read like "Hello World" (a word, a space, a
      word) make a 3-page document of 4 words, not 6: the pages run
      together as "Hello WorldHello WorldHello World". */
  lemma ThreeTwoWordPages(w1: string, sp: string, w2: string)
    requires w1 != [] && AllWordChars(w1) && w2 != [] && AllWordChars(w2)
    requires sp != [] && NoWordChars(sp)
    ensures var p := w1 + sp + w2;
      var pages := [Some(p), Some(p), Some(p)];
      && |pages| == 3
      && CountWords(ConcatPages(pages)) == 4
      && SumPageWords(pages) == 6
  {
    var p := w1 + sp + w2;
    var pages := [Some(p), Some(p), Some(p)];
    ThreePages(p, p, p);
    TwoWordPage(w1, sp, w2);
    assert p[|p| - 1] == w2[|w2| - 1] && p[0] == w1[0];
    assert Joins(p, p);
    CountWordsConcat(p, p);
    assert (p + p)[|p + p| - 1] == p[|p| - 1];
    assert Joins(p + p, p);
    CountWordsConcat(p + p, p);
    assert pages[..2] == [Some(p), Some(p)];
    assert pages[..2][..1] == [Some(p)];
    assert [Some(p)][..0] == [];
    assert PageText(Some(p)) == p;
    assert SumPageWords([Some(p)]) == 2;
    assert SumPageWords(pages[..2]) == 4;
  }

  /** The concrete case: "Hello" and "World" are words, " " is not. */
  lemma HelloWorldShape()
    ensures "Hello World" == "Hello" + " " + "World"
    ensures AllWordChars("Hello") && AllWordChars("World") && NoWordChars(" ")
  {
  }
  /** The same with the literal page text "Hello World". */
  lemma HelloWorldPages()
    ensures var pages := [Some("Hello World"), Some("Hello World"), Some("Hello World")];
      && |pages| == 3
      && CountWords(ConcatPages(pages)) == 4
      && SumPageWords(pages) == 6
  {
    HelloWorldShape();
    ThreeTwoWordPages("Hello", " ", "World");
  }
}
