/** Translation of memory-region flags into page-table mapping flags
    (hypervisor/modules/axhal/src/paging.rs). Both flag types are bit sets; the
    model represents each as the set of flags that is present. */
module Paging {

  /** The flags of `MemRegionFlags`. */
  datatype RegionFlag = RRead | RWrite | RExecute | RDevice | RUncached | RReserved

  /** The flags of `MappingFlags`. */
  datatype MappingFlag = MRead | MWrite | MExecute | MUser | MDevice | MUncached

  /** `From<MemRegionFlags> for MappingFlags`: start from the empty set and add
      READ, WRITE, EXECUTE and DEVICE, each when the region has it. */
  function MappingFlagsFrom(f: set<RegionFlag>): (m: set<MappingFlag>)
    ensures MRead in m <==> RRead in f
    ensures MWrite in m <==> RWrite in f
    ensures MExecute in m <==> RExecute in f
    ensures MDevice in m <==> RDevice in f
    ensures m <= {MRead, MWrite, MExecute, MDevice}
  {
    var ret: set<MappingFlag> := {};
    var ret := if RRead in f then ret + {MRead} else ret;
    var ret := if RWrite in f then ret + {MWrite} else ret;
    var ret := if RExecute in f then ret + {MExecute} else ret;
    var ret := if RDevice in f then ret + {MDevice} else ret;
    ret
  }

  /** The four translated flags, and only those, decide the result. */
  lemma {:induction false} OnlyFourFlagsMatter(f: set<RegionFlag>, g: set<RegionFlag>)
    requires f * {RRead, RWrite, RExecute, RDevice} == g * {RRead, RWrite, RExecute, RDevice}
    ensures MappingFlagsFrom(f) == MappingFlagsFrom(g)
  {
    var k := {RRead, RWrite, RExecute, RDevice};
    assert RRead in k && RWrite in k && RExecute in k && RDevice in k;
    assert RRead in f <==> RRead in f * k;
    assert RWrite in f <==> RWrite in f * k;
    assert RExecute in f <==> RExecute in f * k;
    assert RDevice in f <==> RDevice in f * k;
    assert RRead in f <==> RRead in g;
    assert RWrite in f <==> RWrite in g;
    assert RExecute in f <==> RExecute in g;
    assert RDevice in f <==> RDevice in g;
    SameMembersSameSet(MappingFlagsFrom(f), MappingFlagsFrom(g));
  }

  lemma SameMembersSameSet(m: set<MappingFlag>, n: set<MappingFlag>)
    requires m <= {MRead, MWrite, MExecute, MDevice} && n <= {MRead, MWrite, MExecute, MDevice}
    requires MRead in m <==> MRead in n
    requires MWrite in m <==> MWrite in n
    requires MExecute in m <==> MExecute in n
    requires MDevice in m <==> MDevice in n
    ensures m == n
  {
    forall x | x in m ensures x in n {}
    forall x | x in n ensures x in m {}
  }

  /** The translation distributes over union, and the empty region maps to no
      flags. */
  lemma {:induction false} DistributesOverUnion(f: set<RegionFlag>, g: set<RegionFlag>)
    ensures MappingFlagsFrom(f + g) == MappingFlagsFrom(f) + MappingFlagsFrom(g)
    ensures MappingFlagsFrom({}) == {}
  {
    var l, r := MappingFlagsFrom(f + g), MappingFlagsFrom(f) + MappingFlagsFrom(g);
    SameMembersSameSet(l, r);
    var e := MappingFlagsFrom({});
    SameMembersSameSet(e, {});
  }
}
