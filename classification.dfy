/**
 * Classification of ISMIP-HOM participants by the numerical approximation their model
 * solves: full Stokes, one of four higher-order families, or the shallow-ice approximation.
 * Membership is fixed by three constant tables consulted in that order.
 */
module Classification {

  /** The full-Stokes models. 'aas1' is deliberately absent: its files do not follow the data standard. */
  const FULL_STOKES: seq<string> :=
    ["aas2", "cma1", "fpa2", "ghg1", "jvj1", "mmr1", "oga1", "rhi1", "rhi3", "spr1", "ssu1", "yko1"]

  /** The four higher-order families. */
  const LMLA: seq<string> := ["ahu1", "ahu2", "bds1", "cma2", "fpa1", "fsa1", "mbr1", "rhi2", "tpa1"]
  const L1L2: seq<string> := ["dpo1", "rhi4"]
  const L1L1: seq<string> := ["lpe1", "rhi5"]
  const LTSML: seq<string> := ["mtk1"]

  /** The higher-order table is the concatenation of the four families. */
  const HIGHER_ORDER: seq<string> := LMLA + L1L2 + L1L1 + LTSML

  /** The shallow-ice models. */
  const SIA: seq<string> := ["oso1"]

  /** The value of a record's `order` attribute. */
  datatype Order = FullStokes | HigherOrder | Sia | Unknown

  /** The string the original program stores for each order. */
  function OrderName(o: Order): string
  {
    match o
    case FullStokes => "full_stokes"
    case HigherOrder => "higher_order"
    case Sia => "sia"
    case Unknown => "unknown"
  }

  /** The if/elif chain of the record constructor: full Stokes first, then higher order, then SIA. */
  function Classify(model: string): Order
  {
    if model in FULL_STOKES then FullStokes
    else if model in HIGHER_ORDER then HigherOrder
    else if model in SIA then Sia
    else Unknown
  }

  /** No model code appears in two tables. */
  lemma TablesDisjoint(model: string)
    ensures !(model in FULL_STOKES && model in HIGHER_ORDER)
    ensures !(model in FULL_STOKES && model in SIA)
    ensures !(model in HIGHER_ORDER && model in SIA)
  {
  }

  /**
   * Because the tables are disjoint, the priority chain is a partition: each order is
   * chosen exactly when the code is in that order's table, and Unknown exactly when the
   * code is in none of them.
   */
  lemma ClassifyIsPartition(model: string)
    ensures Classify(model) == FullStokes <==> model in FULL_STOKES
    ensures Classify(model) == HigherOrder <==> model in HIGHER_ORDER
    ensures Classify(model) == Sia <==> model in SIA
    ensures Classify(model) == Unknown <==> model !in FULL_STOKES + HIGHER_ORDER + SIA
  {
    TablesDisjoint(model);
  }

  /** The excluded code 'aas1' is classified Unknown. */
  lemma Aas1IsUnknown()
    ensures Classify("aas1") == Unknown
  {
    assert "aas1" !in FULL_STOKES by {
      assert "aas1" != "aas2" by { assert "aas1"[3] != "aas2"[3]; }
    }
  }

  /** The code 'aaa1', outside every table, is Unknown. */
  lemma Aaa1IsUnknown()
    ensures Classify("aaa1") == Unknown
  {
    assert "aaa1" !in FULL_STOKES by {
      forall t | t in FULL_STOKES ensures "aaa1" != t { assert t[0] != 'a' || t[2] != 'a'; }
    }
    assert "aaa1" !in HIGHER_ORDER by {
      forall t | t in HIGHER_ORDER ensures "aaa1" != t { assert t[0] != 'a' || t[1] != 'a'; }
    }
    assert "aaa1" != SIA[0];
  }

  /** The code 'zzz1', outside every table, is Unknown. */
  lemma Zzz1IsUnknown()
    ensures Classify("zzz1") == Unknown
  {
    assert "zzz1"[0] == 'z';
  }

  /** The code 'ahu1', of the LMLA family, is higher order. */
  lemma Ahu1IsHigherOrder()
    ensures Classify("ahu1") == HigherOrder
  {
    assert "ahu1" in LMLA;
  }
}
