/** The height counters and hashes of the node. */
module SyncConfig {
  import opened SyncTypes

  datatype Config = Config(
    blockNumber: int,
    nextBlock: int,
    executed: int,
    knownHighest: int,
    proposal: int,
    hash: Hash,
    knownHash: Hash,
    genesis: Hash)

  /** The values the fields are constructed with. */
  const FRESH := Config(0, 0, 0, 0, 0, NO_HASH, NO_HASH, NO_HASH)

  function SetExecuted(c: Config, n: int): Config {
    if c.blockNumber <= n then c.(executed := n) else c
  }

  function SetGenesis(c: Config, g: Hash): Config {
    c.(genesis := g, knownHash := if c.knownHash == NO_HASH then g else c.knownHash)
  }

  function ResetBlockInfo(c: Config, n: int, h: Hash): Config {
    c.(blockNumber := n, hash := h, nextBlock := n + 1,
       knownHighest := Max(c.knownHighest, n),
       knownHash := if c.knownHighest < n then h else c.knownHash,
       executed := Max(c.executed, n))
  }

  function ResetConfig(c: Config, n: int, h: Hash): Config {
    if n <= c.blockNumber && c.blockNumber > 0 then c else ResetBlockInfo(c, n, h)
  }

  /** What a peer's height and hash do to the known-highest pair. */
  function RaiseKnown(c: Config, n: int, h: Hash): Config {
    if n <= c.knownHighest then c else c.(knownHighest := n, knownHash := h)
  }

  class BlockSyncConfig {
    var blockNumber: int
    var nextBlock: int
    var executed: int
    var knownHighest: int
    var proposal: int
    var hash: Hash
    var knownHash: Hash
    var genesis: Hash

    ghost function View(): Config
      reads this
    {
      Config(blockNumber, nextBlock, executed, knownHighest, proposal, hash, knownHash, genesis)
    }

    constructor ()
      ensures View() == FRESH
    {
      blockNumber, nextBlock, executed, knownHighest, proposal := 0, 0, 0, 0, 0;
      hash, knownHash, genesis := NO_HASH, NO_HASH, NO_HASH;
    }

    method SetExecutedBlock(n: int)
      modifies this
      ensures View() == SetExecuted(old(View()), n)
    {
      if blockNumber <= n {
        executed := n;
      }
    }

    method SetGenesisHash(g: Hash)
      modifies this
      ensures View() == SetGenesis(old(View()), g)
    {
      genesis := g;
      if knownHash == NO_HASH {
        knownHash := genesis;
      }
    }

    method SetCommittedProposalNumber(n: int)
      modifies this
      ensures View() == old(View()).(proposal := n)
    {
      proposal := n;
    }

    method SetKnownHighest(n: int, h: Hash)
      modifies this
      ensures View() == old(View()).(knownHighest := n, knownHash := h)
    {
      knownHighest := n;
      knownHash := h;
    }

    method ResetBlockInformation(n: int, h: Hash)
      modifies this
      ensures View() == ResetBlockInfo(old(View()), n, h)
    {
      blockNumber := n;
      hash := h;
      nextBlock := blockNumber + 1;
      if knownHighest < n {
        knownHighest := n;
        knownHash := h;
      }
      if n > executed {
        executed := n;
      }
    }

    method Reset(n: int, h: Hash)
      modifies this
      ensures View() == ResetConfig(old(View()), n, h)
    {
      if n <= blockNumber && blockNumber > 0 {
        return;
      }
      ResetBlockInformation(n, h);
    }
  }
}
