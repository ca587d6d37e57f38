/** The listing filter of where.go: four fields whose zero value means "not given". */
module Where {
  import opened Errors

  datatype Where = Where(prefix: string, nextKey: string, exclude: string, limit: nat)
  {
    /** `PrefixStr`: nil for the empty prefix. */
    function PrefixStr(): (r: Option<string>)
      ensures r.None? <==> prefix == ""
      ensures r.Some? ==> r.value == prefix
    {
      if prefix == "" then None else Some(prefix)
    }

    /** `NextKeyStr`: nil for the empty marker. */
    function NextKeyStr(): (r: Option<string>)
      ensures r.None? <==> nextKey == ""
      ensures r.Some? ==> r.value == nextKey
    {
      if nextKey == "" then None else Some(nextKey)
    }

    /** `ExcludeStr`: nil for the empty delimiter. */
    function ExcludeStr(): (r: Option<string>)
      ensures r.None? <==> exclude == ""
      ensures r.Some? ==> r.value == exclude
    {
      if exclude == "" then None else Some(exclude)
    }

    /** `LimitNum`: nil for a zero limit. */
    function LimitNum(): (r: Option<nat>)
      ensures r.None? <==> limit == 0
      ensures r.Some? ==> r.value == limit
    {
      if limit == 0 then None else Some(limit)
    }
  }

  /** Reads a filter back from what its accessors give, nil as the zero value. */
  function FromAccessors(prefix: Option<string>, nextKey: Option<string>, exclude: Option<string>, limit: Option<nat>): Where {
    Where(
      if prefix.Some? then prefix.value else "",
      if nextKey.Some? then nextKey.value else "",
      if exclude.Some? then exclude.value else "",
      if limit.Some? then limit.value else 0)
  }

  /** The accessors lose nothing: the filter is rebuilt from them. */
  lemma AccessorsRoundTrip(w: Where)
    ensures FromAccessors(w.PrefixStr(), w.NextKeyStr(), w.ExcludeStr(), w.LimitNum()) == w
  {
  }

  /** No filter: every accessor is nil. */
  lemma ZeroWhere()
    ensures Where("", "", "", 0).PrefixStr() == None && Where("", "", "", 0).NextKeyStr() == None
    ensures Where("", "", "", 0).ExcludeStr() == None && Where("", "", "", 0).LimitNum() == None
  {
  }
}
