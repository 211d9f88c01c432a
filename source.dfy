/** The release sources and the request code that selects one. */
module Sources {
  import opened Kotlin

  datatype Source = GITHUB | GITEE | ONE_DRIVE {
    /** The request code of this source: a single digit. */
    function Value(): (code: string)
      ensures |code| == 1 && '0' <= code[0] <= '2'
    {
      match this
      case GITHUB => "0"
      case GITEE => "1"
      case ONE_DRIVE => "2"
    }

    /** The release-list address of this source: an https address for the two hosted
        sources; the manual drive source has none, so its address is empty. */
    function Url(): (url: string)
      ensures url == "" <==> this == ONE_DRIVE
      ensures this != ONE_DRIVE ==> StartsWith(url, "https://")
    {
      if this == ONE_DRIVE then "" else "https://" + HostAndPath()
    }

    /** The address of a hosted source after its scheme. */
    function HostAndPath(): (rest: string) {
      match this
      case GITHUB => "api.github.com/repos/WangJie0822/Cashbook/releases?page=1&per_page=50&direction=desc"
      case GITEE => "gitee.com/api/v5/repos/wangjie0822/Cashbook/releases?page=1&per_page=50&direction=desc"
      case ONE_DRIVE => ""
    }
  }

  /** `SourceEnum.entries`, in declaration order. */
  const Entries: seq<Source> := [GITHUB, GITEE, ONE_DRIVE]

  /** `SourceEnum.fromValue`: the first entry whose code is `value`, else GITHUB.
      It is total: every string selects some source. */
  function FromValue(value: string): (s: Source)
    ensures value == "0" ==> s == GITHUB
    ensures value == "1" ==> s == GITEE
    ensures value == "2" ==> s == ONE_DRIVE
    ensures value != "0" && value != "1" && value != "2" ==> s == GITHUB
    ensures s.Value() == value || s == GITHUB
  {
    match FirstIndex(Entries, (e: Source) => e.Value() == value)
    case Some(i) => Entries[i]
    case None => GITHUB
  }

  /** Every source is found again from its own code, and the codes are pairwise distinct. */
  lemma FromValueRoundTrip(e: Source)
    ensures FromValue(e.Value()) == e
    ensures forall f: Source :: f != e ==> f.Value() != e.Value()
  {
  }
}
