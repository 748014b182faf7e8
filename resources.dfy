/**
 * The resource enumeration of the MIMXRT685S power manager: the 57
 * hardware resources a client can place a constraint on, numbered from 0 in
 * declaration order, and the three contiguous groups they fall into.
 */
module Resources {
  import opened Wrappers

  /** The number of resources (the enumerator after the last one). */
  const RESC_MAX_NUM: nat := 57

  datatype Resource =
    // Peripherals and RAMs without a separate retention bit
      MainClk
    | VddCoreRegHp
    | PmcRefHp
    | Hvd1V8
    | PorCoreHp
    | LvdCoreHp
    | HvdCore
    | SysXtal
    | LpOsc
    | Sfro
    | Ffro
    | SysPllLdo
    | SysPllAna
    | AudioPllLdo
    | AudioPllAna
    | AdcActive
    | AdcTemp
    | Acmp
    | Rom

    // Dedicated peripheral SRAMs, two bits each in PDSLEEPCFG1
    | SramPq
    | SramFlexSpi
    | SramUsb
    | SramUsdhc0
    | SramUsdhc1
    | SramCasper
    | SramDspCache
    | SramDspTcm

    // System SRAM partitions, bits in both PDSLEEPCFG2 and PDSLEEPCFG3
    | Sram0_32KB
    | Sram1_32KB
    | Sram2_32KB
    | Sram3_32KB
    | Sram4_32KB
    | Sram5_32KB
    | Sram6_32KB
    | Sram7_32KB
    | Sram8_64KB
    | Sram9_64KB
    | Sram10_64KB
    | Sram11_64KB
    | Sram12_128KB
    | Sram13_128KB
    | Sram14_128KB
    | Sram15_128KB
    | Sram16_256KB
    | Sram17_256KB
    | Sram18_256KB
    | Sram19_256KB
    | Sram20_256KB
    | Sram21_256KB
    | Sram22_256KB
    | Sram23_256KB
    | Sram24_256KB
    | Sram25_256KB
    | Sram26_256KB
    | Sram27_256KB
    | Sram28_256KB
    | Sram29_256KB
  {
    /** The numeric value of the enumerator. */
    function Index(): (i: nat)
    {
      match this
        case MainClk => 0
        case VddCoreRegHp => 1
        case PmcRefHp => 2
        case Hvd1V8 => 3
        case PorCoreHp => 4
        case LvdCoreHp => 5
        case HvdCore => 6
        case SysXtal => 7
        case LpOsc => 8
        case Sfro => 9
        case Ffro => 10
        case SysPllLdo => 11
        case SysPllAna => 12
        case AudioPllLdo => 13
        case AudioPllAna => 14
        case AdcActive => 15
        case AdcTemp => 16
        case Acmp => 17
        case Rom => 18
        case SramPq => 19
        case SramFlexSpi => 20
        case SramUsb => 21
        case SramUsdhc0 => 22
        case SramUsdhc1 => 23
        case SramCasper => 24
        case SramDspCache => 25
        case SramDspTcm => 26
        case Sram0_32KB => 27
        case Sram1_32KB => 28
        case Sram2_32KB => 29
        case Sram3_32KB => 30
        case Sram4_32KB => 31
        case Sram5_32KB => 32
        case Sram6_32KB => 33
        case Sram7_32KB => 34
        case Sram8_64KB => 35
        case Sram9_64KB => 36
        case Sram10_64KB => 37
        case Sram11_64KB => 38
        case Sram12_128KB => 39
        case Sram13_128KB => 40
        case Sram14_128KB => 41
        case Sram15_128KB => 42
        case Sram16_256KB => 43
        case Sram17_256KB => 44
        case Sram18_256KB => 45
        case Sram19_256KB => 46
        case Sram20_256KB => 47
        case Sram21_256KB => 48
        case Sram22_256KB => 49
        case Sram23_256KB => 50
        case Sram24_256KB => 51
        case Sram25_256KB => 52
        case Sram26_256KB => 53
        case Sram27_256KB => 54
        case Sram28_256KB => 55
        case Sram29_256KB => 56
    }
  }

  /** The enumerator whose value is `i`. */
  function ResourceAt(i: nat): Resource
    requires i < RESC_MAX_NUM
  {
    match i
      case 0 => MainClk
      case 1 => VddCoreRegHp
      case 2 => PmcRefHp
      case 3 => Hvd1V8
      case 4 => PorCoreHp
      case 5 => LvdCoreHp
      case 6 => HvdCore
      case 7 => SysXtal
      case 8 => LpOsc
      case 9 => Sfro
      case 10 => Ffro
      case 11 => SysPllLdo
      case 12 => SysPllAna
      case 13 => AudioPllLdo
      case 14 => AudioPllAna
      case 15 => AdcActive
      case 16 => AdcTemp
      case 17 => Acmp
      case 18 => Rom
      case 19 => SramPq
      case 20 => SramFlexSpi
      case 21 => SramUsb
      case 22 => SramUsdhc0
      case 23 => SramUsdhc1
      case 24 => SramCasper
      case 25 => SramDspCache
      case 26 => SramDspTcm
      case 27 => Sram0_32KB
      case 28 => Sram1_32KB
      case 29 => Sram2_32KB
      case 30 => Sram3_32KB
      case 31 => Sram4_32KB
      case 32 => Sram5_32KB
      case 33 => Sram6_32KB
      case 34 => Sram7_32KB
      case 35 => Sram8_64KB
      case 36 => Sram9_64KB
      case 37 => Sram10_64KB
      case 38 => Sram11_64KB
      case 39 => Sram12_128KB
      case 40 => Sram13_128KB
      case 41 => Sram14_128KB
      case 42 => Sram15_128KB
      case 43 => Sram16_256KB
      case 44 => Sram17_256KB
      case 45 => Sram18_256KB
      case 46 => Sram19_256KB
      case 47 => Sram20_256KB
      case 48 => Sram21_256KB
      case 49 => Sram22_256KB
      case 50 => Sram23_256KB
      case 51 => Sram24_256KB
      case 52 => Sram25_256KB
      case 53 => Sram26_256KB
      case 54 => Sram27_256KB
      case 55 => Sram28_256KB
      case _ => Sram29_256KB
  }

  /** Every enumerator has a value below RESC_MAX_NUM, and `ResourceAt` maps it back. */
  lemma ResourceAtIndex(r: Resource)
    ensures r.Index() < RESC_MAX_NUM && ResourceAt(r.Index()) == r
  {
    match r
    case MainClk | VddCoreRegHp | PmcRefHp | Hvd1V8 | PorCoreHp | LvdCoreHp | HvdCore |
      SysXtal | LpOsc | Sfro | Ffro | SysPllLdo | SysPllAna | AudioPllLdo | AudioPllAna |
      AdcActive | AdcTemp | Acmp | Rom =>
    case SramPq | SramFlexSpi | SramUsb | SramUsdhc0 | SramUsdhc1 | SramCasper | SramDspCache |
      SramDspTcm =>
    case Sram0_32KB | Sram1_32KB | Sram2_32KB | Sram3_32KB | Sram4_32KB | Sram5_32KB |
      Sram6_32KB | Sram7_32KB | Sram8_64KB | Sram9_64KB | Sram10_64KB | Sram11_64KB |
      Sram12_128KB | Sram13_128KB | Sram14_128KB | Sram15_128KB | Sram16_256KB | Sram17_256KB |
      Sram18_256KB | Sram19_256KB | Sram20_256KB | Sram21_256KB | Sram22_256KB | Sram23_256KB |
      Sram24_256KB | Sram25_256KB | Sram26_256KB | Sram27_256KB | Sram28_256KB | Sram29_256KB =>
  }

  /** The values 0 .. RESC_MAX_NUM - 1 are all taken: the numbering is dense. */
  lemma IndexOfResourceAt(i: nat)
    requires i < RESC_MAX_NUM
    ensures ResourceAt(i).Index() == i
  {
    if i < 10 {
      IndexOfResourceAtRange(i, 0, 10);
    } else if i < 19 {
      IndexOfResourceAtRange(i, 10, 19);
    } else if i < 27 {
      IndexOfResourceAtRange(i, 19, 27);
    } else if i < 37 {
      IndexOfResourceAtRange(i, 27, 37);
    } else if i < 47 {
      IndexOfResourceAtRange(i, 37, 47);
    } else {
      IndexOfResourceAtRange(i, 47, 57);
    }
  }

  /** `IndexOfResourceAt` for the values in [lo, hi), a few at a time. */
  lemma IndexOfResourceAtRange(i: nat, lo: nat, hi: nat)
    requires lo <= i < hi <= RESC_MAX_NUM && hi - lo <= 10
    ensures ResourceAt(i).Index() == i
  {
  }

  /** Two enumerators share a value only if they are the same enumerator. */
  lemma IndexInjective(r1: Resource, r2: Resource)
    ensures r1.Index() == r2.Index() <==> r1 == r2
  {
    ResourceAtIndex(r1);
    ResourceAtIndex(r2);
  }

  /** The three resource constraint group types. */
  datatype ResourceGroup = Peripherals | Prams | Srams

  /** The RESC_GROUP_*_START macros. */
  function GroupStart(g: ResourceGroup): Resource
  {
    match g
    case Peripherals => MainClk
    case Prams => SramPq
    case Srams => Sram0_32KB
  }

  /** The RESC_GROUP_*_END macros. */
  function GroupEnd(g: ResourceGroup): Resource
  {
    match g
    case Peripherals => Rom
    case Prams => SramDspTcm
    case Srams => Sram29_256KB
  }

  /** The RESC_GROUP_*_SIZE macros: the number of values from start to end inclusive. */
  function GroupSize(g: ResourceGroup): int
  {
    GroupEnd(g).Index() - GroupStart(g).Index() + 1
  }

  /** Resource value `i` lies in the range of group `g`. */
  predicate InGroup(i: nat, g: ResourceGroup)
  {
    GroupStart(g).Index() <= i <= GroupEnd(g).Index()
  }

  /** The group whose range holds resource value `i`, if any. */
  function GroupOf(i: nat): (g: Option<ResourceGroup>)
    ensures g.Some? <==> i < RESC_MAX_NUM
    ensures g.Some? ==> InGroup(i, g.value)
  {
    if i <= GroupEnd(Peripherals).Index() then Some(Peripherals)
    else if i <= GroupEnd(Prams).Index() then Some(Prams)
    else if i <= GroupEnd(Srams).Index() then Some(Srams)
    else None
  }

  /** The group ranges partition [0, RESC_MAX_NUM): each value in range lies in exactly one group. */
  lemma GroupsPartition(i: nat, g: ResourceGroup)
    ensures InGroup(i, g) <==> GroupOf(i) == Some(g)
  {
  }

  /**
   * The groups follow each other without gaps, in the order peripherals, PRAMs, SRAMs:
   * the ranges are [0, 18], [19, 26] and [27, 56].
   */
  lemma GroupsContiguous()
    ensures GroupStart(Peripherals).Index() == 0
    ensures GroupEnd(Peripherals).Index() == 18 && GroupStart(Prams).Index() == 19
    ensures GroupEnd(Prams).Index() == 26 && GroupStart(Srams).Index() == 27
    ensures GroupEnd(Srams).Index() == 56
    ensures GroupEnd(Peripherals).Index() + 1 == GroupStart(Prams).Index()
    ensures GroupEnd(Prams).Index() + 1 == GroupStart(Srams).Index()
    ensures GroupEnd(Srams).Index() + 1 == RESC_MAX_NUM
  {
  }

  /** The group sizes, which add up to the number of resources. */
  lemma GroupSizes()
    ensures GroupSize(Peripherals) == 19
    ensures GroupSize(Prams) == 8
    ensures GroupSize(Srams) == 30
    ensures GroupSize(Peripherals) + GroupSize(Prams) + GroupSize(Srams) == RESC_MAX_NUM
  {
  }

  /** The group a resource belongs to. */
  function GroupOfResource(r: Resource): (g: ResourceGroup)
    ensures InGroup(r.Index(), g)
    ensures GroupOf(r.Index()) == Some(g)
  {
    ResourceAtIndex(r);
    GroupOf(r.Index()).value
  }

  /**
   * A resource with its own retention control: a dedicated peripheral SRAM
   * or a system SRAM partition, that is, anything outside the peripherals group.
   */
  predicate HasRetention(r: Resource)
  {
    GroupOfResource(r) != Peripherals
  }
}
