/** The block window both reconcilers scan next: behind the confirmations, after the checkpoint, bounded in width. */
module ScanWindow {
  import opened Text

  datatype ScanOptions = ScanOptions(confirmations: nat, maxBlockRange: nat, initialLookbackBlocks: nat)

  /** The next window to scan, if there is one. */
  function NextWindow(latest: nat, checkpoint: Option<nat>, o: ScanOptions): Option<(nat, nat)>
    requires o.maxBlockRange >= 1
  {
    var safeHead: int := latest - o.confirmations;
    var from: int := if checkpoint.Some? then checkpoint.value + 1
                     else if safeHead - o.initialLookbackBlocks > 0 then safeHead - o.initialLookbackBlocks else 0;
    if safeHead < 0 || from > safeHead then None
    else
      var to := from + o.maxBlockRange - 1;
      Some((from, if safeHead < to then safeHead else to))
  }

  /**
   * There is a window exactly when a confirmed block is not scanned yet. Windows follow each other without a gap, the
   * first one starting the look-back behind the confirmed head, and end at that head or when they are as wide as the
   * range allows.
   */
  lemma WindowsAreContiguous(latest: nat, checkpoint: Option<nat>, o: ScanOptions)
    requires o.maxBlockRange >= 1
    ensures match NextWindow(latest, checkpoint, o)
            case Some((from, to)) =>
              && from <= to && to + o.confirmations <= latest && to - from < o.maxBlockRange
              && (to + o.confirmations == latest || to - from + 1 == o.maxBlockRange)
              && (checkpoint.Some? ==> from == checkpoint.value + 1)
              && (checkpoint.None? ==>
                    from + o.confirmations + o.initialLookbackBlocks == latest
                    || (from == 0 && latest < o.confirmations + o.initialLookbackBlocks))
            case None => latest < o.confirmations + if checkpoint.Some? then checkpoint.value + 1 else 0
  {
  }
}
