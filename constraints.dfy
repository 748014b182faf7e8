/**
 * The resource constraint tokens of the MIMXRT685S power manager: one named
 * token per (requested state, resource) pair that an application may pass
 * to the power manager. Every resource has a full-on token; only resources
 * with retention control (the peripheral SRAMs and the system SRAM
 * partitions) also have a retention token.
 */
module Constraints {
  import opened Wrappers
  import opened Resources

  /** The requested state of a resource: kept fully on, or kept in retention (partable on, level 1). */
  datatype ResourceState = FullOn | PartableOn1

  /** A constraint token: the pair of a requested state and a resource that PM_ENCODE_RESC packs. */
  datatype Constraint = Constraint(state: ResourceState, resc: Resource)

  // Peripherals and RAMs without a separate retention bit: full-on only.
  const PM_RESC_MAIN_CLK_ON: Constraint := Constraint(FullOn, MainClk)
  const PM_RESC_VDDCOREREG_HP: Constraint := Constraint(FullOn, VddCoreRegHp)
  const PM_RESC_PMCREF_HP: Constraint := Constraint(FullOn, PmcRefHp)
  const PM_RESC_HVD1V8_ACTIVE: Constraint := Constraint(FullOn, Hvd1V8)
  const PM_RESC_PORCORE_HP: Constraint := Constraint(FullOn, PorCoreHp)
  const PM_RESC_LVDCORE_HP: Constraint := Constraint(FullOn, LvdCoreHp)
  const PM_RESC_HVDCORE_ACTIVE: Constraint := Constraint(FullOn, HvdCore)
  const PM_RESC_SYSXTAL_ON: Constraint := Constraint(FullOn, SysXtal)
  const PM_RESC_LPOSC_ON: Constraint := Constraint(FullOn, LpOsc)
  const PM_RESC_SFRO_ON: Constraint := Constraint(FullOn, Sfro)
  const PM_RESC_FFRO_ON: Constraint := Constraint(FullOn, Ffro)
  const PM_RESC_SYSPLLLDO_ON: Constraint := Constraint(FullOn, SysPllLdo)
  const PM_RESC_SYSPLLANA_ON: Constraint := Constraint(FullOn, SysPllAna)
  const PM_RESC_AUDIOPLLLDO_ON: Constraint := Constraint(FullOn, AudioPllLdo)
  const PM_RESC_AUDIOPLLANA_ON: Constraint := Constraint(FullOn, AudioPllAna)
  // The header writes this token with kResc_ADC, which is no enumerator; kResc_ADC_ACTIVE is meant.
  const PM_RESC_ADC_ACTIVE: Constraint := Constraint(FullOn, AdcActive)
  const PM_RESC_ADC_TEMP_ACTIVE: Constraint := Constraint(FullOn, AdcTemp)
  const PM_RESC_ACMP_ACTIVE: Constraint := Constraint(FullOn, Acmp)
  const PM_RESC_ROM_ACTIVE: Constraint := Constraint(FullOn, Rom)

  // Dedicated peripheral SRAMs: active and retention.
  const PM_RESC_PQ_SRAM_ACTIVE: Constraint := Constraint(FullOn, SramPq)
  const PM_RESC_PQ_SRAM_RETENTION: Constraint := Constraint(PartableOn1, SramPq)
  const PM_RESC_FLEXSPI_SRAM_ACTIVE: Constraint := Constraint(FullOn, SramFlexSpi)
  const PM_RESC_FLEXSPI_SRAM_RETENTION: Constraint := Constraint(PartableOn1, SramFlexSpi)
  const PM_RESC_USB_SRAM_ACTIVE: Constraint := Constraint(FullOn, SramUsb)
  const PM_RESC_USB_SRAM_RETENTION: Constraint := Constraint(PartableOn1, SramUsb)
  const PM_RESC_USDHC0_SRAM_ACTIVE: Constraint := Constraint(FullOn, SramUsdhc0)
  const PM_RESC_USDHC0_SRAM_RETENTION: Constraint := Constraint(PartableOn1, SramUsdhc0)
  const PM_RESC_USDHC1_SRAM_ACTIVE: Constraint := Constraint(FullOn, SramUsdhc1)
  const PM_RESC_USDHC1_SRAM_RETENTION: Constraint := Constraint(PartableOn1, SramUsdhc1)
  const PM_RESC_CASPER_SRAM_ACTIVE: Constraint := Constraint(FullOn, SramCasper)
  const PM_RESC_CASPER_SRAM_RETENTION: Constraint := Constraint(PartableOn1, SramCasper)
  const PM_RESC_DSP_CACHE_ACTIVE: Constraint := Constraint(FullOn, SramDspCache)
  const PM_RESC_DSP_CACHE_RETENTION: Constraint := Constraint(PartableOn1, SramDspCache)
  const PM_RESC_DSP_TCM_ACTIVE: Constraint := Constraint(FullOn, SramDspTcm)
  const PM_RESC_DSP_TCM_RETENTION: Constraint := Constraint(PartableOn1, SramDspTcm)

  // System SRAM partitions: active and retention.
  const PM_RESC_SRAM0_32KB_ACTIVE: Constraint := Constraint(FullOn, Sram0_32KB)
  const PM_RESC_SRAM0_32KB_RETENTION: Constraint := Constraint(PartableOn1, Sram0_32KB)
  const PM_RESC_SRAM1_32KB_ACTIVE: Constraint := Constraint(FullOn, Sram1_32KB)
  const PM_RESC_SRAM1_32KB_RETENTION: Constraint := Constraint(PartableOn1, Sram1_32KB)
  const PM_RESC_SRAM2_32KB_ACTIVE: Constraint := Constraint(FullOn, Sram2_32KB)
  const PM_RESC_SRAM2_32KB_RETENTION: Constraint := Constraint(PartableOn1, Sram2_32KB)
  const PM_RESC_SRAM3_32KB_ACTIVE: Constraint := Constraint(FullOn, Sram3_32KB)
  const PM_RESC_SRAM3_32KB_RETENTION: Constraint := Constraint(PartableOn1, Sram3_32KB)
  const PM_RESC_SRAM4_32KB_ACTIVE: Constraint := Constraint(FullOn, Sram4_32KB)
  const PM_RESC_SRAM4_32KB_RETENTION: Constraint := Constraint(PartableOn1, Sram4_32KB)
  const PM_RESC_SRAM5_32KB_ACTIVE: Constraint := Constraint(FullOn, Sram5_32KB)
  const PM_RESC_SRAM5_32KB_RETENTION: Constraint := Constraint(PartableOn1, Sram5_32KB)
  const PM_RESC_SRAM6_32KB_ACTIVE: Constraint := Constraint(FullOn, Sram6_32KB)
  const PM_RESC_SRAM6_32KB_RETENTION: Constraint := Constraint(PartableOn1, Sram6_32KB)
  const PM_RESC_SRAM7_32KB_ACTIVE: Constraint := Constraint(FullOn, Sram7_32KB)
  const PM_RESC_SRAM7_32KB_RETENTION: Constraint := Constraint(PartableOn1, Sram7_32KB)
  const PM_RESC_SRAM8_64KB_ACTIVE: Constraint := Constraint(FullOn, Sram8_64KB)
  const PM_RESC_SRAM8_64KB_RETENTION: Constraint := Constraint(PartableOn1, Sram8_64KB)
  const PM_RESC_SRAM9_64KB_ACTIVE: Constraint := Constraint(FullOn, Sram9_64KB)
  const PM_RESC_SRAM9_64KB_RETENTION: Constraint := Constraint(PartableOn1, Sram9_64KB)
  const PM_RESC_SRAM10_64KB_ACTIVE: Constraint := Constraint(FullOn, Sram10_64KB)
  const PM_RESC_SRAM10_64KB_RETENTION: Constraint := Constraint(PartableOn1, Sram10_64KB)
  const PM_RESC_SRAM11_64KB_ACTIVE: Constraint := Constraint(FullOn, Sram11_64KB)
  const PM_RESC_SRAM11_64KB_RETENTION: Constraint := Constraint(PartableOn1, Sram11_64KB)
  const PM_RESC_SRAM12_128KB_ACTIVE: Constraint := Constraint(FullOn, Sram12_128KB)
  const PM_RESC_SRAM12_128KB_RETENTION: Constraint := Constraint(PartableOn1, Sram12_128KB)
  const PM_RESC_SRAM13_128KB_ACTIVE: Constraint := Constraint(FullOn, Sram13_128KB)
  const PM_RESC_SRAM13_128KB_RETENTION: Constraint := Constraint(PartableOn1, Sram13_128KB)
  const PM_RESC_SRAM14_128KB_ACTIVE: Constraint := Constraint(FullOn, Sram14_128KB)
  const PM_RESC_SRAM14_128KB_RETENTION: Constraint := Constraint(PartableOn1, Sram14_128KB)
  const PM_RESC_SRAM15_128KB_ACTIVE: Constraint := Constraint(FullOn, Sram15_128KB)
  const PM_RESC_SRAM15_128KB_RETENTION: Constraint := Constraint(PartableOn1, Sram15_128KB)
  const PM_RESC_SRAM16_256KB_ACTIVE: Constraint := Constraint(FullOn, Sram16_256KB)
  const PM_RESC_SRAM16_256KB_RETENTION: Constraint := Constraint(PartableOn1, Sram16_256KB)
  const PM_RESC_SRAM17_256KB_ACTIVE: Constraint := Constraint(FullOn, Sram17_256KB)
  const PM_RESC_SRAM17_256KB_RETENTION: Constraint := Constraint(PartableOn1, Sram17_256KB)
  const PM_RESC_SRAM18_256KB_ACTIVE: Constraint := Constraint(FullOn, Sram18_256KB)
  const PM_RESC_SRAM18_256KB_RETENTION: Constraint := Constraint(PartableOn1, Sram18_256KB)
  const PM_RESC_SRAM19_256KB_ACTIVE: Constraint := Constraint(FullOn, Sram19_256KB)
  const PM_RESC_SRAM19_256KB_RETENTION: Constraint := Constraint(PartableOn1, Sram19_256KB)
  const PM_RESC_SRAM20_256KB_ACTIVE: Constraint := Constraint(FullOn, Sram20_256KB)
  const PM_RESC_SRAM20_256KB_RETENTION: Constraint := Constraint(PartableOn1, Sram20_256KB)
  const PM_RESC_SRAM21_256KB_ACTIVE: Constraint := Constraint(FullOn, Sram21_256KB)
  const PM_RESC_SRAM21_256KB_RETENTION: Constraint := Constraint(PartableOn1, Sram21_256KB)
  const PM_RESC_SRAM22_256KB_ACTIVE: Constraint := Constraint(FullOn, Sram22_256KB)
  const PM_RESC_SRAM22_256KB_RETENTION: Constraint := Constraint(PartableOn1, Sram22_256KB)
  const PM_RESC_SRAM23_256KB_ACTIVE: Constraint := Constraint(FullOn, Sram23_256KB)
  const PM_RESC_SRAM23_256KB_RETENTION: Constraint := Constraint(PartableOn1, Sram23_256KB)
  const PM_RESC_SRAM24_256KB_ACTIVE: Constraint := Constraint(FullOn, Sram24_256KB)
  const PM_RESC_SRAM24_256KB_RETENTION: Constraint := Constraint(PartableOn1, Sram24_256KB)
  const PM_RESC_SRAM25_256KB_ACTIVE: Constraint := Constraint(FullOn, Sram25_256KB)
  const PM_RESC_SRAM25_256KB_RETENTION: Constraint := Constraint(PartableOn1, Sram25_256KB)
  const PM_RESC_SRAM26_256KB_ACTIVE: Constraint := Constraint(FullOn, Sram26_256KB)
  const PM_RESC_SRAM26_256KB_RETENTION: Constraint := Constraint(PartableOn1, Sram26_256KB)
  const PM_RESC_SRAM27_256KB_ACTIVE: Constraint := Constraint(FullOn, Sram27_256KB)
  const PM_RESC_SRAM27_256KB_RETENTION: Constraint := Constraint(PartableOn1, Sram27_256KB)
  const PM_RESC_SRAM28_256KB_ACTIVE: Constraint := Constraint(FullOn, Sram28_256KB)
  const PM_RESC_SRAM28_256KB_RETENTION: Constraint := Constraint(PartableOn1, Sram28_256KB)
  const PM_RESC_SRAM29_256KB_ACTIVE: Constraint := Constraint(FullOn, Sram29_256KB)
  const PM_RESC_SRAM29_256KB_RETENTION: Constraint := Constraint(PartableOn1, Sram29_256KB)

  /** The full-on token named after resource `r`; it requests exactly (FullOn, r). */
  function ActiveConstraint(r: Resource): (c: Constraint)
    ensures c.state == FullOn && c.resc == r
  {
    match r
    case MainClk => PM_RESC_MAIN_CLK_ON
    case VddCoreRegHp => PM_RESC_VDDCOREREG_HP
    case PmcRefHp => PM_RESC_PMCREF_HP
    case Hvd1V8 => PM_RESC_HVD1V8_ACTIVE
    case PorCoreHp => PM_RESC_PORCORE_HP
    case LvdCoreHp => PM_RESC_LVDCORE_HP
    case HvdCore => PM_RESC_HVDCORE_ACTIVE
    case SysXtal => PM_RESC_SYSXTAL_ON
    case LpOsc => PM_RESC_LPOSC_ON
    case Sfro => PM_RESC_SFRO_ON
    case Ffro => PM_RESC_FFRO_ON
    case SysPllLdo => PM_RESC_SYSPLLLDO_ON
    case SysPllAna => PM_RESC_SYSPLLANA_ON
    case AudioPllLdo => PM_RESC_AUDIOPLLLDO_ON
    case AudioPllAna => PM_RESC_AUDIOPLLANA_ON
    case AdcActive => PM_RESC_ADC_ACTIVE
    case AdcTemp => PM_RESC_ADC_TEMP_ACTIVE
    case Acmp => PM_RESC_ACMP_ACTIVE
    case Rom => PM_RESC_ROM_ACTIVE
    case SramPq => PM_RESC_PQ_SRAM_ACTIVE
    case SramFlexSpi => PM_RESC_FLEXSPI_SRAM_ACTIVE
    case SramUsb => PM_RESC_USB_SRAM_ACTIVE
    case SramUsdhc0 => PM_RESC_USDHC0_SRAM_ACTIVE
    case SramUsdhc1 => PM_RESC_USDHC1_SRAM_ACTIVE
    case SramCasper => PM_RESC_CASPER_SRAM_ACTIVE
    case SramDspCache => PM_RESC_DSP_CACHE_ACTIVE
    case SramDspTcm => PM_RESC_DSP_TCM_ACTIVE
    case Sram0_32KB => PM_RESC_SRAM0_32KB_ACTIVE
    case Sram1_32KB => PM_RESC_SRAM1_32KB_ACTIVE
    case Sram2_32KB => PM_RESC_SRAM2_32KB_ACTIVE
    case Sram3_32KB => PM_RESC_SRAM3_32KB_ACTIVE
    case Sram4_32KB => PM_RESC_SRAM4_32KB_ACTIVE
    case Sram5_32KB => PM_RESC_SRAM5_32KB_ACTIVE
    case Sram6_32KB => PM_RESC_SRAM6_32KB_ACTIVE
    case Sram7_32KB => PM_RESC_SRAM7_32KB_ACTIVE
    case Sram8_64KB => PM_RESC_SRAM8_64KB_ACTIVE
    case Sram9_64KB => PM_RESC_SRAM9_64KB_ACTIVE
    case Sram10_64KB => PM_RESC_SRAM10_64KB_ACTIVE
    case Sram11_64KB => PM_RESC_SRAM11_64KB_ACTIVE
    case Sram12_128KB => PM_RESC_SRAM12_128KB_ACTIVE
    case Sram13_128KB => PM_RESC_SRAM13_128KB_ACTIVE
    case Sram14_128KB => PM_RESC_SRAM14_128KB_ACTIVE
    case Sram15_128KB => PM_RESC_SRAM15_128KB_ACTIVE
    case Sram16_256KB => PM_RESC_SRAM16_256KB_ACTIVE
    case Sram17_256KB => PM_RESC_SRAM17_256KB_ACTIVE
    case Sram18_256KB => PM_RESC_SRAM18_256KB_ACTIVE
    case Sram19_256KB => PM_RESC_SRAM19_256KB_ACTIVE
    case Sram20_256KB => PM_RESC_SRAM20_256KB_ACTIVE
    case Sram21_256KB => PM_RESC_SRAM21_256KB_ACTIVE
    case Sram22_256KB => PM_RESC_SRAM22_256KB_ACTIVE
    case Sram23_256KB => PM_RESC_SRAM23_256KB_ACTIVE
    case Sram24_256KB => PM_RESC_SRAM24_256KB_ACTIVE
    case Sram25_256KB => PM_RESC_SRAM25_256KB_ACTIVE
    case Sram26_256KB => PM_RESC_SRAM26_256KB_ACTIVE
    case Sram27_256KB => PM_RESC_SRAM27_256KB_ACTIVE
    case Sram28_256KB => PM_RESC_SRAM28_256KB_ACTIVE
    case Sram29_256KB => PM_RESC_SRAM29_256KB_ACTIVE
  }

  /**
   * The retention token named after resource `r`, if the header defines one;
   * it exists exactly for resources with retention control and requests
   * exactly (PartableOn1, r).
   */
  function RetentionConstraint(r: Resource): (c: Option<Constraint>)
    ensures c.Some? <==> HasRetention(r)
    ensures c.Some? ==> c.value.state == PartableOn1 && c.value.resc == r
  {
    match r
    case MainClk | VddCoreRegHp | PmcRefHp | Hvd1V8 | PorCoreHp | LvdCoreHp | HvdCore |
      SysXtal | LpOsc | Sfro | Ffro | SysPllLdo | SysPllAna | AudioPllLdo | AudioPllAna |
      AdcActive | AdcTemp | Acmp | Rom => None
    case SramPq => Some(PM_RESC_PQ_SRAM_RETENTION)
    case SramFlexSpi => Some(PM_RESC_FLEXSPI_SRAM_RETENTION)
    case SramUsb => Some(PM_RESC_USB_SRAM_RETENTION)
    case SramUsdhc0 => Some(PM_RESC_USDHC0_SRAM_RETENTION)
    case SramUsdhc1 => Some(PM_RESC_USDHC1_SRAM_RETENTION)
    case SramCasper => Some(PM_RESC_CASPER_SRAM_RETENTION)
    case SramDspCache => Some(PM_RESC_DSP_CACHE_RETENTION)
    case SramDspTcm => Some(PM_RESC_DSP_TCM_RETENTION)
    case Sram0_32KB => Some(PM_RESC_SRAM0_32KB_RETENTION)
    case Sram1_32KB => Some(PM_RESC_SRAM1_32KB_RETENTION)
    case Sram2_32KB => Some(PM_RESC_SRAM2_32KB_RETENTION)
    case Sram3_32KB => Some(PM_RESC_SRAM3_32KB_RETENTION)
    case Sram4_32KB => Some(PM_RESC_SRAM4_32KB_RETENTION)
    case Sram5_32KB => Some(PM_RESC_SRAM5_32KB_RETENTION)
    case Sram6_32KB => Some(PM_RESC_SRAM6_32KB_RETENTION)
    case Sram7_32KB => Some(PM_RESC_SRAM7_32KB_RETENTION)
    case Sram8_64KB => Some(PM_RESC_SRAM8_64KB_RETENTION)
    case Sram9_64KB => Some(PM_RESC_SRAM9_64KB_RETENTION)
    case Sram10_64KB => Some(PM_RESC_SRAM10_64KB_RETENTION)
    case Sram11_64KB => Some(PM_RESC_SRAM11_64KB_RETENTION)
    case Sram12_128KB => Some(PM_RESC_SRAM12_128KB_RETENTION)
    case Sram13_128KB => Some(PM_RESC_SRAM13_128KB_RETENTION)
    case Sram14_128KB => Some(PM_RESC_SRAM14_128KB_RETENTION)
    case Sram15_128KB => Some(PM_RESC_SRAM15_128KB_RETENTION)
    case Sram16_256KB => Some(PM_RESC_SRAM16_256KB_RETENTION)
    case Sram17_256KB => Some(PM_RESC_SRAM17_256KB_RETENTION)
    case Sram18_256KB => Some(PM_RESC_SRAM18_256KB_RETENTION)
    case Sram19_256KB => Some(PM_RESC_SRAM19_256KB_RETENTION)
    case Sram20_256KB => Some(PM_RESC_SRAM20_256KB_RETENTION)
    case Sram21_256KB => Some(PM_RESC_SRAM21_256KB_RETENTION)
    case Sram22_256KB => Some(PM_RESC_SRAM22_256KB_RETENTION)
    case Sram23_256KB => Some(PM_RESC_SRAM23_256KB_RETENTION)
    case Sram24_256KB => Some(PM_RESC_SRAM24_256KB_RETENTION)
    case Sram25_256KB => Some(PM_RESC_SRAM25_256KB_RETENTION)
    case Sram26_256KB => Some(PM_RESC_SRAM26_256KB_RETENTION)
    case Sram27_256KB => Some(PM_RESC_SRAM27_256KB_RETENTION)
    case Sram28_256KB => Some(PM_RESC_SRAM28_256KB_RETENTION)
    case Sram29_256KB => Some(PM_RESC_SRAM29_256KB_RETENTION)
  }

  /** `c` is one of the tokens the header defines. */
  predicate Defined(c: Constraint)
  {
    ActiveConstraint(c.resc) == c || RetentionConstraint(c.resc) == Some(c)
  }

  /**
   * The header defines a token for a pair exactly when the state is full-on,
   * or the state is retention and the resource is an SRAM outside the
   * peripherals group.
   */
  lemma DefinedConstraints(c: Constraint)
    ensures Defined(c) <==> c.state == FullOn || GroupOfResource(c.resc) != Peripherals
  {
  }
}
