/**
 * The deployment script (`contracts/scripts/deploy.ts`): deploy each named contract in order,
 * collect one `.env` line and one record per contract, and write both files only when every
 * deployment succeeded.
 *
 * The chain is a function from a deployment request (contract name and constructor
 * arguments) to its landing: the address and transaction hash, or a throw. The balance and
 * the existing `.env.local` contents are inputs; what would be written is the output.
 */
module Deploy {
  import opened Wrappers
  import Strings
  import EnvFile
  import CreateNft

  /** The contracts the script deploys, in order. */
  const ContractNames: seq<string> := ["NFT", "Marketplace"]

  const Nft := "NFT"
  const Marketplace := "Marketplace"

  /** The marketplace fee, in percent, passed to the Marketplace constructor. */
  const FeePercent := 1

  const Network := "sepolia"

  /** `parseEther("0.01")`: the balance, in wei, below which the script warns. */
  const LowBalanceWei := 10_000_000_000_000_000

  datatype Request = Request(name: string, args: seq<int>)

  /**
   * What one iteration's remote work comes back with: `getContractFactory`, `deploy()`,
   * `waitForDeployment()` and `getAddress()` either all answer, giving the address and the
   * deployment transaction's hash, or one of them throws into the loop's `catch`.
   */
  datatype Landing = Landed(address: string, txHash: Option<string>) | Threw

  /** One entry of `deploymentInfo.contracts`. */
  datatype ContractRecord = ContractRecord(
    address: string,
    transactionHash: Option<string>,
    feePercent: Option<int>)

  /** Only the Marketplace takes a constructor argument, the fee. */
  function ConstructorArgs(name: string): seq<int> {
    if name == Marketplace then [FeePercent] else []
  }

  function RequestFor(name: string): Request {
    Request(name, ConstructorArgs(name))
  }

  /** The `.env` key a contract's address is saved under. */
  function EnvKey(name: string): string {
    "NEXT_PUBLIC_" + Strings.ToUpper(name) + "_ADDRESS"
  }

  /** The record for a deployed contract; only the Marketplace's mentions the fee. */
  function RecordFor(name: string, address: string, hash: Option<string>): ContractRecord {
    ContractRecord(address, hash, if name == Marketplace then Some(FeePercent) else None)
  }

  function AddressOf(l: Landing): string {
    if l.Landed? then l.address else ""
  }

  // ---------------------------------------------------------------------------------------
  // The deployment loop

  /** The loop's accumulators, plus the requests made and the name whose deployment threw. */
  datatype Progress = Progress(
    requests: seq<Request>,
    envData: string,
    contracts: map<string, ContractRecord>,
    failed: Option<string>)

  const Start := Progress([], "", map[], None)

  /** One iteration of the loop body: deploy `name`, then record it, or stop at the throw. */
  function Step(p: Progress, name: string, chain: Request -> Landing): Progress {
    var req := RequestFor(name);
    match chain(req)
    case Threw => p.(requests := p.requests + [req], failed := Some(name))
    case Landed(address, hash) =>
      p.(requests := p.requests + [req],
         envData := p.envData + EnvFile.Line(EnvKey(name), address),
         contracts := p.contracts[name := RecordFor(name, address, hash)])
  }

  /** The loop over `names` as a fold: after a throw, the remaining names are never tried. */
  function Fold(names: seq<string>, chain: Request -> Landing): Progress
    decreases |names|
  {
    if names == [] then Start
    else
      var p := Fold(names[..|names| - 1], chain);
      if p.failed.Some? then p else Step(p, names[|names| - 1], chain)
  }

  /** Once a deployment has thrown, the rest of the list changes nothing. */
  lemma {:induction false} FoldStaysFailed(names: seq<string>, k: nat, chain: Request -> Landing)
    requires k <= |names|
    requires Fold(names[..k], chain).failed.Some?
    ensures Fold(names, chain) == Fold(names[..k], chain)
    decreases |names| - k
  {
    if k < |names| {
      assert names[..k + 1][..k] == names[..k];
      FoldStaysFailed(names, k + 1, chain);
    } else {
      assert names[..k] == names;
    }
  }

  /** The `for ... of` loop as written, with its `throw` on the first failing deployment. */
  method DeployLoop(names: seq<string>, chain: Request -> Landing) returns (p: Progress)
    ensures p == Fold(names, chain)
    ensures p.failed.None? ==> |p.requests| == |names|
  {
    p := Start;
    var i := 0;
    while i < |names|
      invariant 0 <= i <= |names|
      invariant p == Fold(names[..i], chain)
      invariant p.failed.None?
      invariant |p.requests| == i
    {
      assert names[..i + 1][..i] == names[..i];
      p := Step(p, names[i], chain);
      if p.failed.Some? {
        FoldStaysFailed(names, i + 1, chain);
        return;
      }
      i := i + 1;
    }
    assert names[..i] == names;
  }

  /**
   * Contracts are requested in list order, each with its own constructor arguments, up to
   * and including the one that threw, if any.
   */
  lemma {:induction false} FoldRequests(names: seq<string>, chain: Request -> Landing)
    ensures var p := Fold(names, chain);
      && |p.requests| <= |names|
      && (forall i :: 0 <= i < |p.requests| ==> p.requests[i] == RequestFor(names[i]))
      && (p.failed.None? ==> |p.requests| == |names|)
      && (p.failed.Some? ==> |p.requests| >= 1 && p.failed == Some(names[|p.requests| - 1]))
    decreases |names|
  {
    if names != [] {
      var init := names[..|names| - 1];
      var last := names[|names| - 1];
      FoldRequests(init, chain);
      var q := Fold(init, chain);
      var p := Fold(names, chain);
      assert forall i :: 0 <= i < |init| ==> init[i] == names[i];
      if q.failed.None? {
        assert p == Step(q, last, chain);
        assert p.requests == q.requests + [RequestFor(last)];
        forall i | 0 <= i < |p.requests|
          ensures p.requests[i] == RequestFor(names[i])
        {
          if i < |q.requests| {
            assert p.requests[i] == q.requests[i];
          }
        }
      }
    }
  }

  /** Every deployment but the last requested landed, and the last one threw exactly when the run failed. */
  lemma {:induction false} FoldStopsAtThrow(names: seq<string>, chain: Request -> Landing)
    ensures var p := Fold(names, chain);
      && (forall i :: 0 <= i < |p.requests| - 1 ==> chain(p.requests[i]).Landed?)
      && (p.failed.None? ==> forall i :: 0 <= i < |p.requests| ==> chain(p.requests[i]).Landed?)
      && (p.failed.Some? ==> |p.requests| >= 1 && chain(p.requests[|p.requests| - 1]).Threw?)
    decreases |names|
  {
    if names != [] {
      var init := names[..|names| - 1];
      FoldStopsAtThrow(init, chain);
    }
  }

  /**
   * Every record belongs to a deployed name and carries the address it landed at; only the
   * Marketplace's record holds the fee; a run without a throw records every name.
   */
  lemma {:induction false} FoldRecords(names: seq<string>, chain: Request -> Landing)
    ensures var p := Fold(names, chain);
      && (forall n :: n in p.contracts ==> n in names)
      && (forall n :: n in p.contracts ==>
            chain(RequestFor(n)) == Landed(p.contracts[n].address, p.contracts[n].transactionHash))
      && (forall n :: n in p.contracts ==>
            p.contracts[n].feePercent == (if n == Marketplace then Some(FeePercent) else None))
      && (p.failed.None? ==> forall i :: 0 <= i < |names| ==> names[i] in p.contracts)
    decreases |names|
  {
    if names != [] {
      var init := names[..|names| - 1];
      FoldRecords(init, chain);
      assert names == init + [names[|names| - 1]];
    }
  }

  /** What the client reads back from the new lines: one entry per contract, in list order. */
  function Entries(names: seq<string>, chain: Request -> Landing): seq<(string, string)> {
    seq(|names|, i requires 0 <= i < |names| => (EnvKey(names[i]), AddressOf(chain(RequestFor(names[i])))))
  }

  /** A name that can be written as one `.env` key. */
  predicate PlainName(name: string) {
    '=' !in name && '\n' !in name
  }

  /** Addresses never contain a line break. */
  ghost predicate SingleLineAddresses(chain: Request -> Landing) {
    forall req :: chain(req).Landed? ==> '\n' !in chain(req).address
  }

  lemma EnvKeyIsPlain(name: string)
    requires PlainName(name)
    ensures PlainName(EnvKey(name))
  {
    Strings.ToUpperIdempotent(name);
    assert !Strings.IsLetter('=') && !Strings.IsLetter('\n');
  }

  /** The new `.env` lines read back as exactly one entry per contract, in deployment order. */
  lemma {:induction false} FoldEnvData(names: seq<string>, chain: Request -> Landing)
    requires forall i :: 0 <= i < |names| ==> PlainName(names[i])
    requires SingleLineAddresses(chain)
    ensures Fold(names, chain).failed.None? ==>
      EnvFile.Parse(Fold(names, chain).envData) == Entries(names, chain)
    decreases |names|
  {
    var p := Fold(names, chain);
    if names != [] && p.failed.None? {
      var init := names[..|names| - 1];
      var last := names[|names| - 1];
      var q := Fold(init, chain);
      assert q.failed.None?;
      assert p == Step(q, last, chain);
      assert chain(RequestFor(last)).Landed?;
      var address := chain(RequestFor(last)).address;
      var line := EnvFile.Line(EnvKey(last), address);
      assert p.envData == q.envData + line;
      assert forall i :: 0 <= i < |init| ==> init[i] == names[i];
      FoldEnvData(init, chain);
      EnvKeyIsPlain(last);
      EnvFile.ParseLine(EnvKey(last), address, "");
      assert line + "" == line;
      EnvDataIsWholeLines(init, chain);
      EnvFile.ParseAfterLineEnd(q.envData, line);
      EntriesSnoc(names, chain);
    }
  }

  /** The entries of a list are those of all but its last name, then the last name's. */
  lemma EntriesSnoc(names: seq<string>, chain: Request -> Landing)
    requires names != []
    ensures var last := names[|names| - 1];
      Entries(names, chain)
      == Entries(names[..|names| - 1], chain) + [(EnvKey(last), AddressOf(chain(RequestFor(last))))]
  {
  }

  /** The accumulated env data is always a run of whole, newline-terminated lines. */
  lemma {:induction false} EnvDataIsWholeLines(names: seq<string>, chain: Request -> Landing)
    ensures var d := Fold(names, chain).envData; d == [] || d[|d| - 1] == '\n'
    decreases |names|
  {
    if names != [] {
      EnvDataIsWholeLines(names[..|names| - 1], chain);
    }
  }

  /** The keys the script derives are exactly the ones the create page reads its addresses from. */
  lemma ClientReadsDeployedKeys()
    ensures EnvKey(Nft) == CreateNft.NftAddressKey
    ensures EnvKey(Marketplace) == CreateNft.MarketplaceAddressKey
    ensures (set n | n in ContractNames :: EnvKey(n))
         == {CreateNft.NftAddressKey, CreateNft.MarketplaceAddressKey}
  {
    DeployedKeys();
    assert ContractNames == [Nft, Marketplace];
  }

  /** The two derived keys, spelled out. */
  lemma DeployedKeys()
    ensures EnvKey(Nft) == CreateNft.NftAddressKey
    ensures EnvKey(Marketplace) == CreateNft.MarketplaceAddressKey
  {
  }

  /** The loop over the script's own list, spelled out for each way it can end. */
  lemma FoldContractNames(chain: Request -> Landing)
    ensures var p := Fold(ContractNames, chain);
      var nft := chain(RequestFor(Nft));
      var market := chain(RequestFor(Marketplace));
      && (nft.Threw? ==> p == Progress([RequestFor(Nft)], "", map[], Some(Nft)))
      && (nft.Landed? ==>
            var afterNft := Progress([RequestFor(Nft)],
                                     EnvFile.Line(EnvKey(Nft), nft.address),
                                     map[Nft := RecordFor(Nft, nft.address, nft.txHash)], None);
            p == Step(afterNft, Marketplace, chain))
  {
    assert ContractNames[..1] == [Nft];
    assert [Nft][..0] == [];
    if chain(RequestFor(Nft)).Landed? {
      var line := EnvFile.Line(EnvKey(Nft), chain(RequestFor(Nft)).address);
      assert "" + line == line;
    }
  }

  // ---------------------------------------------------------------------------------------
  // The script

  datatype DeploymentInfo = DeploymentInfo(
    network: string,
    deployer: string,
    contracts: map<string, ContractRecord>)

  /** The two files the script writes. */
  datatype Files = Files(envLocal: string, deployInfo: DeploymentInfo)

  /** One run of `main`: the warning, the deployments requested, the files written, the error. */
  datatype Run = Run(
    lowBalanceWarning: bool,
    requests: seq<Request>,
    written: Option<Files>,
    error: Option<string>)

  /**
   * `main`: warn on a low balance, deploy every contract, then write `.env.local` (the old
   * contents, a newline, the new lines; a missing file reads as empty) and the deployment
   * info, or write nothing if a deployment threw.
   */
  function Main(deployer: string, balanceWei: int, existingEnv: Option<string>,
                chain: Request -> Landing): (r: Run)
    ensures r.lowBalanceWarning <==> balanceWei < LowBalanceWei
    ensures r.written.Some? <==> r.error.None?
    ensures r.written.Some? ==>
      var prior := existingEnv.GetOr("");
      && |r.written.value.envLocal| > |prior|
      && r.written.value.envLocal[..|prior|] == prior
      && r.written.value.envLocal[|prior|] == '\n'
    ensures r.written.Some? ==>
      r.written.value.deployInfo.network == Network && r.written.value.deployInfo.deployer == deployer
  {
    var p := Fold(ContractNames, chain);
    var warn := balanceWei < LowBalanceWei;
    if p.failed.Some? then Run(warn, p.requests, None, p.failed)
    else
      var prior := existingEnv.GetOr("");
      var envLocal := prior + "\n" + p.envData;
      Run(warn, p.requests, Some(Files(envLocal, DeploymentInfo(Network, deployer, p.contracts))), None)
  }

  /** NFT is deployed first, with no arguments, then Marketplace with the fee; nothing else. */
  lemma MainDeploysInOrder(deployer: string, balanceWei: int, existingEnv: Option<string>,
                           chain: Request -> Landing)
    ensures var r := Main(deployer, balanceWei, existingEnv, chain);
      && 1 <= |r.requests| <= 2
      && r.requests == [Request(Nft, []), Request(Marketplace, [FeePercent])][..|r.requests|]
  {
    var r := Main(deployer, balanceWei, existingEnv, chain);
    FoldRequests(ContractNames, chain);
    assert Nft != Marketplace by { assert |Nft| != |Marketplace|; }
    assert RequestFor(Nft) == Request(Nft, []);
    assert RequestFor(Marketplace) == Request(Marketplace, [FeePercent]);
    if |r.requests| == 1 {
      assert r.requests == [RequestFor(ContractNames[0])];
    } else {
      assert r.requests == [RequestFor(ContractNames[0]), RequestFor(ContractNames[1])];
    }
  }

  /**
   * Files are written exactly when both deployments land; otherwise the run fails with the
   * name of the contract whose deployment threw, and no later deployment is attempted.
   */
  lemma MainAllOrNothing(deployer: string, balanceWei: int, existingEnv: Option<string>,
                         chain: Request -> Landing)
    ensures var r := Main(deployer, balanceWei, existingEnv, chain);
      && (r.written.Some? <==> chain(RequestFor(Nft)).Landed? && chain(RequestFor(Marketplace)).Landed?)
      && (forall i :: 0 <= i < |r.requests| - 1 ==> chain(r.requests[i]).Landed?)
      && (r.error.None? ==> |r.requests| == 2)
      && (r.error.Some? ==> |r.requests| >= 1
                            && chain(r.requests[|r.requests| - 1]).Threw?
                            && r.error == Some(r.requests[|r.requests| - 1].name))
  {
    FoldContractNames(chain);
    FoldRequests(ContractNames, chain);
    FoldStopsAtThrow(ContractNames, chain);
  }

  /** The written records: one per contract, at its landed address, the fee only on Marketplace. */
  lemma MainRecords(deployer: string, balanceWei: int, existingEnv: Option<string>,
                    chain: Request -> Landing)
    ensures var r := Main(deployer, balanceWei, existingEnv, chain);
      r.written.Some? ==>
        var contracts := r.written.value.deployInfo.contracts;
        var nft := chain(RequestFor(Nft));
        var market := chain(RequestFor(Marketplace));
        && contracts.Keys == {Nft, Marketplace}
        && contracts[Nft] == ContractRecord(nft.address, nft.txHash, None)
        && contracts[Marketplace] == ContractRecord(market.address, market.txHash, Some(FeePercent))
  {
    FoldContractNames(chain);
  }

  /**
   * Read back, the written `.env.local` holds the old entries followed by the two addresses,
   * under the keys the create page reads.
   */
  lemma MainEnvFile(deployer: string, balanceWei: int, existingEnv: Option<string>,
                    chain: Request -> Landing)
    requires SingleLineAddresses(chain)
    ensures var r := Main(deployer, balanceWei, existingEnv, chain);
      r.written.Some? ==>
        EnvFile.Parse(r.written.value.envLocal)
        == EnvFile.Parse(existingEnv.GetOr(""))
           + [(CreateNft.NftAddressKey, chain(RequestFor(Nft)).address),
              (CreateNft.MarketplaceAddressKey, chain(RequestFor(Marketplace)).address)]
  {
    var r := Main(deployer, balanceWei, existingEnv, chain);
    if r.written.Some? {
      var p := Fold(ContractNames, chain);
      ContractNamesArePlain();
      FoldEnvData(ContractNames, chain);
      EnvFile.ParseAppend(existingEnv.GetOr(""), p.envData);
      ContractEntries(chain);
    }
  }

  /**
   * The written `.env.local` text itself: the old contents, a newline, then one `KEY=address`
   * line for NFT and one for Marketplace, under the keys the create page reads.
   */
  lemma MainEnvText(deployer: string, balanceWei: int, existingEnv: Option<string>,
                    chain: Request -> Landing)
    ensures var r := Main(deployer, balanceWei, existingEnv, chain);
      r.written.Some? ==>
        r.written.value.envLocal
        == existingEnv.GetOr("") + "\n"
           + EnvFile.Line(CreateNft.NftAddressKey, chain(RequestFor(Nft)).address)
           + EnvFile.Line(CreateNft.MarketplaceAddressKey, chain(RequestFor(Marketplace)).address)
  {
    var r := Main(deployer, balanceWei, existingEnv, chain);
    if r.written.Some? {
      var nftLine := EnvFile.Line(EnvKey(Nft), chain(RequestFor(Nft)).address);
      var marketLine := EnvFile.Line(EnvKey(Marketplace), chain(RequestFor(Marketplace)).address);
      MainWritesFoldText(deployer, balanceWei, existingEnv, chain);
      ContractNamesEnvData(chain);
      DeployedKeys();
      JoinAfterNewline(r.written.value.envLocal, existingEnv.GetOr(""), nftLine, marketLine);
    }
  }

  /** What `main` writes to `.env.local` is the old contents, a newline and the loop's text. */
  lemma MainWritesFoldText(deployer: string, balanceWei: int, existingEnv: Option<string>,
                           chain: Request -> Landing)
    ensures var r := Main(deployer, balanceWei, existingEnv, chain);
      r.written.Some? ==>
        && Fold(ContractNames, chain).failed.None?
        && r.written.value.envLocal == existingEnv.GetOr("") + "\n" + Fold(ContractNames, chain).envData
  {
  }

  /** Regrouping `prior + "\n" + (x + y)` as `prior + "\n" + x + y`. */
  lemma JoinAfterNewline(text: string, prior: string, x: string, y: string)
    requires text == prior + "\n" + (x + y)
    ensures text == prior + "\n" + x + y
  {
  }

  /** Without a throw, the script's loop accumulates the NFT line, then the Marketplace line. */
  lemma ContractNamesEnvData(chain: Request -> Landing)
    ensures var p := Fold(ContractNames, chain);
      p.failed.None? ==>
        && chain(RequestFor(Nft)).Landed? && chain(RequestFor(Marketplace)).Landed?
        && p.envData == EnvFile.Line(EnvKey(Nft), chain(RequestFor(Nft)).address)
                        + EnvFile.Line(EnvKey(Marketplace), chain(RequestFor(Marketplace)).address)
  {
    FoldContractNames(chain);
  }

  lemma ContractNamesArePlain()
    ensures forall i :: 0 <= i < |ContractNames| ==> PlainName(ContractNames[i])
  {
    assert PlainName(Nft) && PlainName(Marketplace);
  }

  /** The entries the two contracts contribute, under the keys the create page reads. */
  lemma ContractEntries(chain: Request -> Landing)
    ensures Entries(ContractNames, chain)
         == [(CreateNft.NftAddressKey, AddressOf(chain(RequestFor(Nft)))),
             (CreateNft.MarketplaceAddressKey, AddressOf(chain(RequestFor(Marketplace))))]
  {
    var e := Entries(ContractNames, chain);
    assert ContractNames[0] == Nft && ContractNames[1] == Marketplace;
    assert e[0] == (EnvKey(Nft), AddressOf(chain(RequestFor(Nft))));
    assert e[1] == (EnvKey(Marketplace), AddressOf(chain(RequestFor(Marketplace))));
    assert e == [e[0], e[1]];
    DeployedKeys();
  }

  /** The balance check only warns: the deployments and the files do not depend on it. */
  lemma BalanceOnlyWarns(deployer: string, low: int, high: int, existingEnv: Option<string>,
                         chain: Request -> Landing)
    requires low < LowBalanceWei <= high
    ensures Main(deployer, low, existingEnv, chain)
         == Main(deployer, high, existingEnv, chain).(lowBalanceWarning := true)
    ensures !Main(deployer, high, existingEnv, chain).lowBalanceWarning
  {
  }
}
