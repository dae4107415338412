/** The page decisions of the PDF processor. The PDF reader is replaced by
    the sequence of the texts its pages yield. */
module Pdf {
  import opened Common
  import opened Models

  /** The category named by a folder of the path: juridico first, then
      financeiro, then tecnico; outros when none of them is a part. */
  function DetectCategoryFromPath(parts: seq<string>): (c: DocumentCategory)
    ensures c == Juridico <==> "juridico" in parts
    ensures c == Financeiro <==> "juridico" !in parts && "financeiro" in parts
    ensures c == Tecnico <==> "juridico" !in parts && "financeiro" !in parts && "tecnico" in parts
    ensures c == Outros <==> "juridico" !in parts && "financeiro" !in parts && "tecnico" !in parts
  {
    if "juridico" in parts then Juridico
    else if "financeiro" in parts then Financeiro
    else if "tecnico" in parts then Tecnico
    else Outros
  }

  /** The detected category names a folder of the path, and a path that
      names a category's folder is never filed under outros. */
  lemma DetectedFolderInPath(parts: seq<string>)
    ensures var c := DetectCategoryFromPath(parts);
            (c != Outros ==> CategoryValue(c) in parts)
            && (c == Outros <==> forall k :: k in [Juridico, Financeiro, Tecnico] ==> CategoryValue(k) !in parts)
  {
    var c := DetectCategoryFromPath(parts);
    assert CategoryValue(Juridico) == "juridico";
    assert CategoryValue(Financeiro) == "financeiro";
    assert CategoryValue(Tecnico) == "tecnico";
  }

  // ---------------------------------------------------------------- is_scanned

  /** A page looks scanned when its stripped text has fewer than 50 characters. */
  predicate LooksScanned(text: string) {
    |Strip(text)| < 50
  }

  function ScannedCount(texts: seq<string>): (n: nat)
    ensures n <= |texts|
    decreases |texts|
  {
    if |texts| == 0 then 0
    else ScannedCount(texts[..|texts| - 1]) + (if LooksScanned(texts[|texts| - 1]) then 1 else 0)
  }

  /** is_scanned over the page texts: the first min(sample_pages, n) pages are
      inspected and the PDF is scanned when more than 70% of them look scanned;
      with nothing to inspect the division by zero is an error, and a negative
      sample gives a negative divisor and so false. */
  method IsScanned(pageTexts: seq<string>, samplePages: int) returns (r: Result<bool>)
    ensures r.Err? <==> Min(samplePages, |pageTexts|) == 0
    ensures r.Err? ==> r.error == ZeroDivision
    ensures r.Ok? ==> var checked := Min(samplePages, |pageTexts|);
              r.value == (checked > 0 && 10 * ScannedCount(pageTexts[..checked]) > 7 * checked)
  {
    var pagesToCheck := Min(samplePages, |pageTexts|);
    var scannedCount := 0;
    var i := 0;
    while i < pagesToCheck
      invariant 0 <= i <= Max(pagesToCheck, 0)
      invariant scannedCount == ScannedCount(pageTexts[..i])
    {
      var text := pageTexts[i];
      assert pageTexts[..i + 1][..i] == pageTexts[..i];
      if |Strip(text)| < 50 {
        scannedCount := scannedCount + 1;
      }
      i := i + 1;
    }
    if pagesToCheck == 0 {
      return Err(ZeroDivision);
    }
    if pagesToCheck > 0 {
      RatioAboveSeventy(scannedCount, pagesToCheck);
    }
    r := Ok(scannedCount as real / pagesToCheck as real > 0.7);
  }

  /** Comparing the scanned fraction with 0.7 is comparing 10 * scanned with 7 * checked. */
  lemma RatioAboveSeventy(scanned: int, checked: int)
    requires checked > 0
    ensures (scanned as real / checked as real > 0.7) <==> 10 * scanned > 7 * checked
  {
    var q := scanned as real / checked as real;
    var c := checked as real;
    assert q * c == scanned as real;
    if q > 0.7 {
      ScaleStrict(q, 0.7, c);
    } else {
      ScaleWeak(q, 0.7, c);
    }
  }

  lemma ScaleStrict(a: real, b: real, c: real)
    requires a > b && c > 0.0
    ensures a * c > b * c
  {
    assert a * c - b * c == (a - b) * c;
  }

  lemma ScaleWeak(a: real, b: real, c: real)
    requires a <= b && c > 0.0
    ensures a * c <= b * c
  {
    assert b * c - a * c == (b - a) * c;
  }

  /** A sample in which every page looks scanned counts all of them, and one
      in which none does counts nothing. */
  lemma {:induction false} ScannedCountBounds(texts: seq<string>)
    ensures (forall k :: 0 <= k < |texts| ==> LooksScanned(texts[k])) ==> ScannedCount(texts) == |texts|
    ensures (forall k :: 0 <= k < |texts| ==> !LooksScanned(texts[k])) ==> ScannedCount(texts) == 0
    decreases |texts|
  {
    if |texts| > 0 {
      var init := texts[..|texts| - 1];
      assert forall k :: 0 <= k < |init| ==> init[k] == texts[k];
      ScannedCountBounds(init);
    }
  }

  // ---------------------------------------------------------------- page selection

  /** extract_text: the non-blank pages, keyed by their 1-based number, among
      the requested page numbers (all pages for None). */
  method ExtractText(pageTexts: seq<string>, pages: Option<seq<int>>) returns (textByPage: map<int, string>)
    ensures forall p :: p in textByPage <==>
              1 <= p <= |pageTexts| && (pages.None? || p in pages.value) && NotBlank(pageTexts[p - 1])
    ensures forall p :: p in textByPage ==> textByPage[p] == pageTexts[p - 1]
  {
    textByPage := map[];
    var i := 0;
    while i < |pageTexts|
      invariant 0 <= i <= |pageTexts|
      invariant forall p :: p in textByPage <==>
                  1 <= p <= i && (pages.None? || p in pages.value) && NotBlank(pageTexts[p - 1])
      invariant forall p :: p in textByPage ==> textByPage[p] == pageTexts[p - 1]
    {
      if pages.None? || (i + 1) in pages.value {
        var text := pageTexts[i];
        if NotBlank(text) {
          textByPage := textByPage[i + 1 := text];
        }
      }
      i := i + 1;
    }
  }

  /** extract_text_with_layout: the same rule over every page of the layout
      extractor's texts. */
  method ExtractTextWithLayout(layoutTexts: seq<string>) returns (textByPage: map<int, string>)
    ensures forall p :: p in textByPage <==> 1 <= p <= |layoutTexts| && NotBlank(layoutTexts[p - 1])
    ensures forall p :: p in textByPage ==> textByPage[p] == layoutTexts[p - 1]
  {
    textByPage := map[];
    var i := 0;
    while i < |layoutTexts|
      invariant 0 <= i <= |layoutTexts|
      invariant forall p :: p in textByPage <==> 1 <= p <= i && NotBlank(layoutTexts[p - 1])
      invariant forall p :: p in textByPage ==> textByPage[p] == layoutTexts[p - 1]
    {
      var text := layoutTexts[i];
      if NotBlank(text) {
        textByPage := textByPage[i + 1 := text];
      }
      i := i + 1;
    }
  }
}
