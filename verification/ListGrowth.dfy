/** `sys.getsizeof` of a list built by appends alone, for CPython 3.6 on a 64-bit machine: the
    concrete size function behind the batch length that FanIn compares against. */
module ListGrowth {
  import opened AgentCommon

  /** Slots allocated after n appends: a full list grows by an eighth and a few. */
  function Allocated(n: nat): nat {
    if n == 0 then 0
    else if n <= Allocated(n - 1) then Allocated(n - 1)
    else n + n / 8 + (if n < 9 then 3 else 6)
  }

  function ListSize(n: nat): nat {
    64 + 8 * Allocated(n)
  }

  lemma {:induction false} RoomForAll(n: nat)
    ensures Allocated(n) >= n
  {
    if n > 0 {
      RoomForAll(n - 1);
    }
  }

  lemma {:induction false} SizeMonotone(m: nat, n: nat)
    requires m <= n
    ensures ListSize(m) <= ListSize(n)
  {
    if m < n {
      SizeMonotone(m, n - 1);
    }
  }

  /** Sizes are unbounded, so every batch size has a batch length, and only one. */
  lemma EveryBatchSizeHasALength(cfg: Config) returns (len: nat)
    requires cfg.byteBatchSize > 0 && cfg.size == ListSize
    ensures IsBatchLength(cfg, len)
    ensures forall other: nat :: IsBatchLength(cfg, other) ==> other == len
  {
    RoomForAll(cfg.byteBatchSize);
    assert cfg.size(cfg.byteBatchSize) >= cfg.byteBatchSize;
    len := BatchLengthExists(cfg);
  }

  /** No reallocation until the room of a list of k elements is used up. */
  lemma {:induction false} Plateau(k: nat, n: nat)
    requires k <= n <= Allocated(k)
    ensures Allocated(n) == Allocated(k)
  {
    if k < n {
      Plateau(k, n - 1);
    }
  }

  /** The configured 512 bytes are reached by 47 records. */
  lemma ConfiguredBatchLength(cfg: Config)
    requires cfg.byteBatchSize == 512 && cfg.size == ListSize
    ensures IsBatchLength(cfg, 47)
  {
    Plateau(1, 4);
    Plateau(5, 8);
    Plateau(9, 16);
    Plateau(17, 25);
    Plateau(26, 35);
    Plateau(36, 46);
    assert Allocated(46) == 46 && Allocated(47) == 58;
    assert cfg.size(47) == ListSize(47);
    forall n | 1 <= n < 47
      ensures cfg.size(n) < 512
    {
      SizeMonotone(n, 46);
      assert cfg.size(n) == ListSize(n);
    }
  }
}
