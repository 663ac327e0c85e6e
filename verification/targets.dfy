/**
 The crawl targets of the batch job: the list comprehension at crawler.py
 line 129, `[URL + str(index) + "/" for index in range(1, SIZE)]`.
 */
module Targets {
  import opened Optional
  import opened Quiz
  import opened Decimal

  /** The address of page `index` under `base`. */
  function TargetUrl(base: string, index: nat): string {
    base + NatToString(index) + "/"
  }

  /** One address per page number 1, 2, ..., size - 1; `range(1, size)` is empty when size <= 1. */
  function TargetUrls(base: string, size: int): (urls: seq<string>)
    ensures |urls| == Max(0, size - 1)
    ensures forall i :: 0 <= i < |urls| ==> urls[i] == TargetUrl(base, i + 1)
  {
    seq(Max(0, size - 1), i requires 0 <= i => TargetUrl(base, i + 1))
  }

  /**
   The page number an address names under `base`, or Absent when the address
   is not of the form base + str(index) + "/" with index >= 1.
   */
  function PageNumber(base: string, url: string): (index: Maybe<nat>)
    ensures index.Present? ==> index.value >= 1 && TargetUrl(base, index.value) == url
  {
    if |url| >= |base| + 2 && url[..|base|] == base && url[|url| - 1] == '/' then
      var digits := url[|base|..|url| - 1];
      if IsCanonical(digits) && digits != "0" then
        NatToStringParse(digits);
        assert url == base + digits + "/";
        Present(ParseDecimal(digits))
      else Absent
    else Absent
  }

  /** Every generated address names its own page number. */
  lemma PageNumberOfTarget(base: string, index: nat)
    requires index >= 1
    ensures PageNumber(base, TargetUrl(base, index)) == Present(index)
  {
    var url := TargetUrl(base, index);
    var digits := NatToString(index);
    assert url[..|base|] == base;
    assert url[|base|..|url| - 1] == digits;
    ParseNatToString(index);
  }

  /** An address is a target of the list exactly when it names a page number below `size`. */
  lemma TargetUrlsMembership(base: string, size: int, url: string)
    ensures url in TargetUrls(base, size)
        <==> PageNumber(base, url).Present? && PageNumber(base, url).value < size
  {
    var urls := TargetUrls(base, size);
    if url in urls {
      var i :| 0 <= i < |urls| && urls[i] == url;
      PageNumberOfTarget(base, i + 1);
    }
    if PageNumber(base, url).Present? && PageNumber(base, url).value < size {
      var index := PageNumber(base, url).value;
      assert urls[index - 1] == url;
    }
  }

  /** No address is generated twice. */
  lemma TargetUrlsDistinct(base: string, size: int)
    ensures forall i, j ::
              0 <= i < j < |TargetUrls(base, size)| ==> TargetUrls(base, size)[i] != TargetUrls(base, size)[j]
  {
    var urls := TargetUrls(base, size);
    forall i, j | 0 <= i < j < |urls|
      ensures urls[i] != urls[j]
    {
      PageNumberOfTarget(base, i + 1);
      PageNumberOfTarget(base, j + 1);
    }
  }

  /** The configured job visits pages 1 to 257 of the configured site. */
  lemma ConfiguredTargets()
    ensures |TargetUrls(URL, SIZE)| == 257
    ensures TargetUrls(URL, SIZE)[0] == URL + "1/"
    ensures TargetUrls(URL, SIZE)[256] == URL + "257/"
  {
  }
}
