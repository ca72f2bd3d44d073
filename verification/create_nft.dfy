/**
 * The "Create and List NFT" page: form validation, the wallet connection, the image upload
 * handler and the create-then-list pipeline (`client/src/app/create-nft/page.tsx`).
 *
 * React state is a plain `Form` record and every handler is a pure function from the form
 * before to the form after. The remote world (wallet, content store, the two contracts) is a
 * `World` record holding the outcome of each remote step; a handler returns the calls it
 * issued, in order, so ordering and "no call after a failure" can be stated about that trace.
 */
module CreateNft {
  import opened Wrappers

  /** Gateway prefix of both the image URL and the metadata URI. */
  const Gateway := "https://ipfs.infura.io/ipfs/"

  /** The environment variables the page reads for the two contract addresses. */
  const NftAddressKey := "NEXT_PUBLIC_NFT_ADDRESS"
  const MarketplaceAddressKey := "NEXT_PUBLIC_MARKETPLACE_ADDRESS"

  const ImageMissing := "Please upload an image"
  const NameMissing := "Please provide a name"
  const DescriptionMissing := "Please provide a description"
  const PriceMissing := "Please set a price"
  const ConnectFailed := "Failed to connect to blockchain. Please ensure MetaMask is connected."
  const ImageUploadFailed := "Failed to upload image to IPFS. Please try again."
  const CreateFailed := "Failed to create and list NFT. Please try again."
  const Created := "NFT created and listed successfully!"

  type Address = string

  /** The page's state hooks; `price` starts as `null` and holds the input's text once edited. */
  datatype Form = Form(
    image: string,
    price: Option<string>,
    name: string,
    description: string,
    isLoading: bool,
    errorMessage: string,
    successMessage: string)

  /** The state the page starts in. */
  const InitialForm := Form("", None, "", "", false, "", "")

  /** The URL under which the gateway serves the content stored at `path`. */
  function GatewayUri(path: string): string {
    Gateway + path
  }

  /** Recovers the content path from a gateway URL; `None` for any other string. */
  function GatewayPath(uri: string): (p: Option<string>)
    ensures p.Some? <==> |uri| >= |Gateway| && uri[..|Gateway|] == Gateway
    ensures p.Some? ==> GatewayUri(p.value) == uri
  {
    if |uri| >= |Gateway| && uri[..|Gateway|] == Gateway then
      assert uri == uri[..|Gateway|] + uri[|Gateway|..];
      Some(uri[|Gateway|..])
    else None
  }

  /** The path is recoverable from the URL built from it, so distinct uploads get distinct URLs. */
  lemma GatewayRoundTrip(path: string)
    ensures GatewayPath(GatewayUri(path)) == Some(path)
  {
    assert GatewayUri(path)[..|Gateway|] == Gateway;
    assert GatewayUri(path)[|Gateway|..] == path;
  }

  // ---------------------------------------------------------------------------------------
  // Validation

  datatype Field = Image | Name | Description | Price

  /** Position of a field in the order `createNFT` checks them. */
  function Position(f: Field): nat {
    match f
    case Image => 0
    case Name => 1
    case Description => 2
    case Price => 3
  }

  /** JavaScript truthiness of a string: only the empty string is falsy. */
  predicate Truthy(s: string) {
    s != ""
  }

  /** Whether a field passes its `if (!field)` check; a `null` price is falsy. */
  predicate Filled(form: Form, f: Field) {
    match f
    case Image => Truthy(form.image)
    case Name => Truthy(form.name)
    case Description => Truthy(form.description)
    case Price => form.price.Some? && Truthy(form.price.value)
  }

  function MissingMessage(f: Field): string {
    match f
    case Image => ImageMissing
    case Name => NameMissing
    case Description => DescriptionMissing
    case Price => PriceMissing
  }

  /**
   * The four checks at the top of `createNFT`: the first field, in the order image, name,
   * description, price, that is empty. `None` means the form is complete.
   */
  function Validate(form: Form): (r: Option<Field>)
    ensures r.None? <==> forall f: Field :: Filled(form, f)
    ensures r.Some? ==> !Filled(form, r.value)
    ensures r.Some? ==> forall f: Field :: Position(f) < Position(r.value) ==> Filled(form, f)
  {
    if !Truthy(form.image) then assert !Filled(form, Image); Some(Image)
    else if !Truthy(form.name) then assert !Filled(form, Name); Some(Name)
    else if !Truthy(form.description) then assert !Filled(form, Description); Some(Description)
    else if !(form.price.Some? && Truthy(form.price.value)) then assert !Filled(form, Price); Some(Price)
    else None
  }

  /** The price check is truthiness only: "0", or any other non-empty text, gets through. */
  lemma PriceCheckIsTruthinessOnly(form: Form)
    requires Truthy(form.image) && Truthy(form.name) && Truthy(form.description)
    ensures Validate(form).None? <==> form.price.Some? && form.price.value != ""
    ensures Validate(form.(price := Some("0"))).None?
    ensures Validate(form.(price := None)) == Some(Price)
    ensures Validate(form.(price := Some(""))) == Some(Price)
  {
  }

  // ---------------------------------------------------------------------------------------
  // The remote world

  /** The answer of every remote step one submission may take, in the order they are taken. */
  datatype World = World(
    accountsGranted: bool,         // window.ethereum.request({ method: 'eth_requestAccounts' })
    metadataPath: Option<string>,  // client.add(JSON.stringify(...)): the stored path, or a throw
    mintSent: bool,                // nft.mint(uri)
    mintMined: bool,               // mintTx.wait()
    tokenCount: Option<int>,       // nft.tokenCount()
    approvalSent: bool,            // nft.setApprovalForAll(...)
    approvalMined: bool,           // approvalTx.wait()
    listingSent: bool,             // marketplace.makeItem(...)
    listingMined: bool)            // listingTx.wait()

  /** What the page runs in: whether a wallet is injected, and the two configured addresses. */
  datatype Env = Env(walletPresent: bool, marketplaceAddress: Address, nftAddress: Address)

  /** Contract handles; each exposes the address it was constructed with. */
  datatype Contracts = Contracts(marketplace: Address, nft: Address)

  /** The JSON document stored before minting. */
  datatype Metadata = Metadata(image: string, price: string, name: string, description: string)

  /** A remote call the page issues while creating and listing. */
  datatype Call =
    | RequestAccounts
    | UploadMetadata(metadata: Metadata)
    | Mint(uri: string)
    | WaitMint
    | ReadTokenCount
    | SetApprovalForAll(operator: Address, approved: bool)
    | WaitApproval
    | MakeItem(nft: Address, tokenId: int, price: int)
    | WaitListing

  /** The place of each call in the one order the page issues them in. */
  function Rank(c: Call): nat {
    match c
    case RequestAccounts => 0
    case UploadMetadata(_) => 1
    case Mint(_) => 2
    case WaitMint => 3
    case ReadTokenCount => 4
    case SetApprovalForAll(_, _) => 5
    case WaitApproval => 6
    case MakeItem(_, _, _) => 7
    case WaitListing => 8
  }

  /** Whether the world answered a call without throwing. */
  predicate Answered(w: World, c: Call) {
    match c
    case RequestAccounts => w.accountsGranted
    case UploadMetadata(_) => w.metadataPath.Some?
    case Mint(_) => w.mintSent
    case WaitMint => w.mintMined
    case ReadTokenCount => w.tokenCount.Some?
    case SetApprovalForAll(_, _) => w.approvalSent
    case WaitApproval => w.approvalMined
    case MakeItem(_, _, _) => w.listingSent
    case WaitListing => w.listingMined
  }

  /**
   * The nine calls of a submission that goes all the way through, in the order the page
   * issues them. A submission that stops early issues a prefix of this plan.
   */
  function Plan(meta: Metadata, uri: string, c: Contracts, id: int, wei: int): seq<Call> {
    [RequestAccounts, UploadMetadata(meta)] + MintPlan(uri, c, id, wei)
  }

  /** The last seven calls of the plan, the ones `mintThenList` issues. */
  function MintPlan(uri: string, c: Contracts, id: int, wei: int): seq<Call> {
    [Mint(uri), WaitMint, ReadTokenCount, SetApprovalForAll(c.marketplace, true), WaitApproval,
     MakeItem(c.nft, id, wei), WaitListing]
  }

  /** Calls are issued in rank order, starting at rank `first`, with none skipped. */
  ghost predicate InOrderFrom(calls: seq<Call>, first: nat) {
    forall i :: 0 <= i < |calls| ==> Rank(calls[i]) == first + i
  }

  /** Every call but the last was answered: nothing is issued after a failing step. */
  ghost predicate StopsAtFailure(calls: seq<Call>, w: World) {
    forall i :: 0 <= i < |calls| - 1 ==> Answered(w, calls[i])
  }

  /**
   * A listing names the NFT contract and the token count read after the mint, and is issued
   * only after both the mint and the approval were confirmed.
   */
  ghost predicate ListsOnlyConfirmed(calls: seq<Call>, w: World, nft: Address) {
    forall i :: 0 <= i < |calls| && calls[i].MakeItem? ==>
      && calls[i].nft == nft
      && w.tokenCount == Some(calls[i].tokenId)
      && WaitMint in calls[..i] && w.mintMined
      && WaitApproval in calls[..i] && w.approvalMined
  }

  /** Approval is always granted, with `true`, to the marketplace. */
  ghost predicate ApprovesMarketplace(calls: seq<Call>, marketplace: Address) {
    forall i :: 0 <= i < |calls| && calls[i].SetApprovalForAll? ==>
      calls[i] == SetApprovalForAll(marketplace, true)
  }

  /** The plan issues each rank exactly once, at the position of that rank. */
  lemma PlanShape(meta: Metadata, uri: string, c: Contracts, id: int, wei: int)
    ensures var plan := Plan(meta, uri, c, id, wei);
      && |plan| == 9
      && (forall i :: 0 <= i < 9 ==> Rank(plan[i]) == i)
      && plan[1] == UploadMetadata(meta) && plan[2] == Mint(uri)
      && plan[3] == WaitMint && plan[4] == ReadTokenCount
      && plan[5] == SetApprovalForAll(c.marketplace, true) && plan[6] == WaitApproval
      && plan[7] == MakeItem(c.nft, id, wei)
  {
    var plan := Plan(meta, uri, c, id, wei);
    assert plan == [RequestAccounts, UploadMetadata(meta), Mint(uri), WaitMint, ReadTokenCount,
                    SetApprovalForAll(c.marketplace, true), WaitApproval, MakeItem(c.nft, id, wei),
                    WaitListing];
  }

  /**
   * What the trace of any submission that follows the plan and stops at its first failure
   * guarantees: strict order, approval of the marketplace, and a listing of the token count
   * read after a confirmed mint and a confirmed approval, at the converted price.
   */
  lemma PlanPrefixFacts(calls: seq<Call>, meta: Metadata, uri: string, c: Contracts, w: World,
                        wei: Option<int>)
    requires |calls| <= 9
    requires calls == Plan(meta, uri, c, w.tokenCount.GetOr(0), wei.GetOr(0))[..|calls|]
    requires StopsAtFailure(calls, w)
    requires |calls| >= 8 ==> wei.Some?
    ensures InOrderFrom(calls, 0)
    ensures forall i :: 0 <= i < |calls| && calls[i].UploadMetadata? ==> calls[i] == UploadMetadata(meta)
    ensures forall i :: 0 <= i < |calls| && calls[i].Mint? ==> calls[i] == Mint(uri)
    ensures ApprovesMarketplace(calls, c.marketplace)
    ensures ListsOnlyConfirmed(calls, w, c.nft)
    ensures forall i :: 0 <= i < |calls| && calls[i].MakeItem? ==> wei == Some(calls[i].price)
  {
    var plan := Plan(meta, uri, c, w.tokenCount.GetOr(0), wei.GetOr(0));
    PlanShape(meta, uri, c, w.tokenCount.GetOr(0), wei.GetOr(0));
    assert forall i :: 0 <= i < |calls| ==> calls[i] == plan[i];
    forall i | 0 <= i < |calls| && calls[i].UploadMetadata?
      ensures calls[i] == UploadMetadata(meta)
    {
      assert Rank(plan[i]) == 1;
    }
    forall i | 0 <= i < |calls| && calls[i].Mint?
      ensures calls[i] == Mint(uri)
    {
      assert Rank(plan[i]) == 2;
    }
    forall i | 0 <= i < |calls| && calls[i].SetApprovalForAll?
      ensures calls[i] == SetApprovalForAll(c.marketplace, true)
    {
      assert Rank(plan[i]) == 5;
    }
    forall i | 0 <= i < |calls| && calls[i].MakeItem?
      ensures WaitMint in calls[..i] && WaitApproval in calls[..i]
      ensures w.mintMined && w.approvalMined && w.tokenCount == Some(calls[i].tokenId)
      ensures wei == Some(calls[i].price)
    {
      assert Rank(plan[i]) == 7;
      assert calls[..i][3] == WaitMint && calls[..i][6] == WaitApproval;
      assert Answered(w, calls[3]) && Answered(w, calls[4]) && Answered(w, calls[6]);
    }
  }

  // ---------------------------------------------------------------------------------------
  // Handlers

  /**
   * The outcome of `getContracts`: the calls issued, the handles (`None` when it threw) and
   * the form as its `catch` leaves it.
   */
  datatype Connection = Connection(calls: seq<Call>, contracts: Option<Contracts>, form: Form)

  /**
   * `getContracts`: fails before any call when no wallet is injected, otherwise asks for
   * account access and, if granted, builds handles at the configured addresses. Either
   * failure sets the connection error message before rethrowing.
   */
  function GetContracts(form: Form, env: Env, w: World): (r: Connection)
    ensures !env.walletPresent ==> r.calls == [] && r.contracts.None?
    ensures env.walletPresent ==> r.calls == [RequestAccounts]
    ensures r.contracts.Some? <==> env.walletPresent && w.accountsGranted
    ensures r.contracts.Some? ==>
      r.contracts.value == Contracts(env.marketplaceAddress, env.nftAddress) && r.form == form
    ensures r.contracts.None? ==> r.form == form.(errorMessage := ConnectFailed)
  {
    if !env.walletPresent then Connection([], None, form.(errorMessage := ConnectFailed))
    else if !w.accountsGranted then
      Connection([RequestAccounts], None, form.(errorMessage := ConnectFailed))
    else
      Connection([RequestAccounts], Some(Contracts(env.marketplaceAddress, env.nftAddress)), form)
  }

  /** The outcome of `mintThenList`: the calls issued and whether it ran to the end. */
  datatype Attempt = Attempt(calls: seq<Call>, completed: bool)

  /**
   * `mintThenList`: mint at the gateway URI of the stored metadata, wait, read the token
   * count, approve the marketplace, wait, convert the price and list, wait. The first
   * throw ends the attempt; `parseEther` answers `None` where ethers would throw.
   */
  function MintThenList(path: string, price: string, c: Contracts, w: World,
                        parseEther: string -> Option<int>): (r: Attempt)
    ensures 1 <= |r.calls| <= 7
    ensures r.calls == MintPlan(GatewayUri(path), c, w.tokenCount.GetOr(0),
                                parseEther(price).GetOr(0))[..|r.calls|]
    ensures StopsAtFailure(r.calls, w)
    ensures |r.calls| >= 6 ==> parseEther(price).Some?
    ensures r.completed <==> |r.calls| == 7 && w.listingMined
    // an attempt that did not complete ends at the step that threw: the last call failed, or
    // the price did not convert right after the confirmed approval
    ensures !r.completed ==>
      !Answered(w, r.calls[|r.calls| - 1]) || (|r.calls| == 5 && parseEther(price).None?)
  {
    var mint := Mint(GatewayUri(path));
    if !w.mintSent then Attempt([mint], false)
    else if !w.mintMined then Attempt([mint, WaitMint], false)
    else if w.tokenCount.None? then Attempt([mint, WaitMint, ReadTokenCount], false)
    else
      var id := w.tokenCount.value;
      var approve := SetApprovalForAll(c.marketplace, true);
      if !w.approvalSent then Attempt([mint, WaitMint, ReadTokenCount, approve], false)
      else if !w.approvalMined then
        Attempt([mint, WaitMint, ReadTokenCount, approve, WaitApproval], false)
      else match parseEther(price)
        case None => Attempt([mint, WaitMint, ReadTokenCount, approve, WaitApproval], false)
        case Some(wei) =>
          var list := MakeItem(c.nft, id, wei);
          if !w.listingSent then
            Attempt([mint, WaitMint, ReadTokenCount, approve, WaitApproval, list], false)
          else
            Attempt([mint, WaitMint, ReadTokenCount, approve, WaitApproval, list, WaitListing],
                    w.listingMined)
  }

  /** What one press of "Create & List NFT" issues and leaves behind. */
  datatype Submission = Submission(calls: seq<Call>, form: Form)

  /** The state after the `catch` branch and the final `setIsLoading(false)`. */
  function Failed(form: Form): Form {
    form.(errorMessage := CreateFailed, isLoading := false)
  }

  /** The state after the success path and the final `setIsLoading(false)`. */
  function Succeeded(form: Form): Form {
    form.(image := "", name := "", description := "", price := None,
          successMessage := Created, isLoading := false)
  }

  /** All nine calls were issued and answered. */
  ghost predicate Listed(calls: seq<Call>, w: World) {
    |calls| == 9 && forall i :: 0 <= i < 9 ==> Answered(w, calls[i])
  }

  /**
   * The `try` block of `createNFT`, entered once validation passed: connect, store the
   * metadata JSON, then mint-then-list. It completes exactly when all nine calls were answered.
   */
  function TryCreate(form: Form, env: Env, w: World, parseEther: string -> Option<int>)
    : (a: Attempt)
    requires Validate(form).None?
    ensures !env.walletPresent ==> a.calls == []
    ensures env.walletPresent ==> |a.calls| >= 1
    ensures |a.calls| <= 9
    ensures InOrderFrom(a.calls, 0)
    ensures StopsAtFailure(a.calls, w)
    ensures forall i :: 0 <= i < |a.calls| && a.calls[i].UploadMetadata? ==>
      form.price.Some? &&
      a.calls[i].metadata == Metadata(form.image, form.price.value, form.name, form.description)
    ensures forall i :: 0 <= i < |a.calls| && a.calls[i].Mint? ==>
      w.metadataPath.Some? && a.calls[i].uri == GatewayUri(w.metadataPath.value)
    ensures ApprovesMarketplace(a.calls, env.marketplaceAddress)
    ensures ListsOnlyConfirmed(a.calls, w, env.nftAddress)
    ensures forall i :: 0 <= i < |a.calls| && a.calls[i].MakeItem? ==>
      form.price.Some? && parseEther(form.price.value) == Some(a.calls[i].price)
    ensures a.completed <==> Listed(a.calls, w)
    // every step runs until one throws: a failed attempt ends at a call that was not
    // answered, or right after the approval when the price does not convert
    ensures env.walletPresent && !a.completed ==>
      var last := a.calls[|a.calls| - 1];
      || !Answered(w, last)
      || (last == WaitApproval && form.price.Some? && parseEther(form.price.value).None?)
  {
    var conn := GetContracts(form, env, w);
    match conn.contracts
    case None => Attempt(conn.calls, false)
    case Some(c) =>
      var price := form.price.value;
      var meta := Metadata(form.image, price, form.name, form.description);
      var stored := [RequestAccounts, UploadMetadata(meta)];
      match w.metadataPath
      case None =>
        PlanPrefixFacts(stored, meta, "", c, w, None);
        Attempt(stored, false)
      case Some(path) =>
        var m := MintThenList(path, price, c, w, parseEther);
        var calls := stored + m.calls;
        var wei := parseEther(price);
        assert calls == Plan(meta, GatewayUri(path), c, w.tokenCount.GetOr(0), wei.GetOr(0))[..|calls|];
        PlanPrefixFacts(calls, meta, GatewayUri(path), c, w, wei);
        assert |calls| == 9 ==> calls[8] == WaitListing;
        Attempt(calls, m.completed)
  }

  /**
   * `createNFT`: validate, then run the `try` block. Any throw after validation collapses
   * into the one generic error message.
   */
  function CreateNft(form: Form, env: Env, w: World, parseEther: string -> Option<int>)
    : (r: Submission)
    // a validation failure issues nothing and changes only the error message
    ensures Validate(form).Some? ==>
      r.calls == [] && r.form == form.(errorMessage := MissingMessage(Validate(form).value))
    // otherwise loading ends false, whatever happened
    ensures Validate(form).None? ==> !r.form.isLoading
    ensures Validate(form).None? && !env.walletPresent ==> r.calls == []
    // with a wallet, every step runs until one throws: a failed submission ends at a call
    // that was not answered, or right after the approval when the price does not convert
    ensures Validate(form).None? && env.walletPresent ==> |r.calls| >= 1
    ensures Validate(form).None? && env.walletPresent && !Listed(r.calls, w) ==>
      var last := r.calls[|r.calls| - 1];
      || !Answered(w, last)
      || (last == WaitApproval && form.price.Some? && parseEther(form.price.value).None?)
    ensures |r.calls| <= 9
    ensures InOrderFrom(r.calls, 0)
    ensures StopsAtFailure(r.calls, w)
    ensures forall i :: 0 <= i < |r.calls| && r.calls[i].UploadMetadata? ==>
      form.price.Some? &&
      r.calls[i].metadata == Metadata(form.image, form.price.value, form.name, form.description)
    ensures forall i :: 0 <= i < |r.calls| && r.calls[i].Mint? ==>
      w.metadataPath.Some? && r.calls[i].uri == GatewayUri(w.metadataPath.value)
    ensures ApprovesMarketplace(r.calls, env.marketplaceAddress)
    ensures ListsOnlyConfirmed(r.calls, w, env.nftAddress)
    ensures forall i :: 0 <= i < |r.calls| && r.calls[i].MakeItem? ==>
      form.price.Some? && parseEther(form.price.value) == Some(r.calls[i].price)
    // success clears the fields and reports it
    ensures Listed(r.calls, w) ==>
      && r.form.image == "" && r.form.name == "" && r.form.description == ""
      && r.form.price.None? && r.form.successMessage == Created && r.form.errorMessage == ""
    // any failure after validation keeps the fields and shows the generic message
    ensures Validate(form).None? && !Listed(r.calls, w) ==>
      && r.form.image == form.image && r.form.name == form.name
      && r.form.description == form.description && r.form.price == form.price
      && r.form.errorMessage == CreateFailed && r.form.successMessage == form.successMessage
  {
    match Validate(form)
    case Some(f) => Submission([], form.(errorMessage := MissingMessage(f)))
    case None =>
      var started := form.(errorMessage := "", isLoading := true);
      var a := TryCreate(form, env, w, parseEther);
      // the form the `try` block threw with: getContracts sets its own message first
      var thrown := GetContracts(started, env, w).form;
      Submission(a.calls, if a.completed then Succeeded(started) else Failed(thrown))
  }

  /** The outcome of `uploadToIPFS`: the file sent to the content store, if any, and the form. */
  datatype ImageUpload = ImageUpload(sent: Option<seq<bv8>>, form: Form)

  /**
   * `uploadToIPFS`: clears the error, then, when a file was chosen, stores it and points the
   * image at its gateway URL (`added` is the stored path, or `None` for a throw).
   */
  function UploadToIpfs(form: Form, file: Option<seq<bv8>>, added: Option<string>): (r: ImageUpload)
    ensures r.sent == file
    ensures file.None? ==> r.form == form.(errorMessage := "")
    ensures file.Some? ==> !r.form.isLoading
    ensures file.Some? && added.Some? ==>
      GatewayPath(r.form.image) == added && r.form.errorMessage == ""
    ensures file.Some? && added.None? ==>
      r.form.image == form.image && r.form.errorMessage == ImageUploadFailed
    ensures r.form.name == form.name && r.form.description == form.description
    ensures r.form.price == form.price && r.form.successMessage == form.successMessage
  {
    var cleared := form.(errorMessage := "");
    match file
    case None => ImageUpload(None, cleared)
    case Some(_) =>
      match added
      case Some(path) =>
        GatewayRoundTrip(path);
        ImageUpload(file, cleared.(image := GatewayUri(path), isLoading := false))
      case None =>
        ImageUpload(file, cleared.(errorMessage := ImageUploadFailed, isLoading := false))
  }

  // ---------------------------------------------------------------------------------------
  // Properties across handlers

  /** The whole pipeline succeeds exactly when the form is complete and every step answers. */
  lemma CreateSucceedsIff(form: Form, env: Env, w: World, parseEther: string -> Option<int>)
    ensures Listed(CreateNft(form, env, w, parseEther).calls, w) <==>
      && Validate(form).None? && env.walletPresent && w.accountsGranted
      && w.metadataPath.Some? && w.mintSent && w.mintMined && w.tokenCount.Some?
      && w.approvalSent && w.approvalMined && parseEther(form.price.value).Some?
      && w.listingSent && w.listingMined
  {
  }

  /**
   * The image URL set by the upload handler is also what the metadata stores, and both it and
   * the minted URI are gateway URLs of the same shape.
   */
  lemma ImageFlowsIntoMetadata(form: Form, file: seq<bv8>, path: string, env: Env, w: World,
                               parseEther: string -> Option<int>)
    requires Validate(UploadToIpfs(form, Some(file), Some(path)).form).None?
    requires env.walletPresent && w.accountsGranted
    ensures var f := UploadToIpfs(form, Some(file), Some(path)).form;
      CreateNft(f, env, w, parseEther).calls[1].metadata.image == GatewayUri(path)
  {
  }

  /**
   * A failure after an earlier success leaves the earlier success banner standing next to
   * the new error: nothing on the failure path clears `successMessage`.
   */
  lemma StaleSuccessBanner(form: Form, env: Env, w: World, parseEther: string -> Option<int>)
    requires Validate(form).None? && !Listed(CreateNft(form, env, w, parseEther).calls, w)
    requires form.successMessage == Created
    ensures CreateNft(form, env, w, parseEther).form.successMessage == Created
    ensures CreateNft(form, env, w, parseEther).form.errorMessage == CreateFailed
  {
  }

  /**
   * When the wallet is missing or refuses access, `getContracts` sets its own message, and the
   * `catch` of `createNFT` replaces it with the generic one: the connection message is never
   * what the user sees.
   */
  lemma ConnectMessageOverwritten(form: Form, env: Env, w: World, parseEther: string -> Option<int>)
    requires Validate(form).None?
    requires !env.walletPresent || !w.accountsGranted
    ensures GetContracts(form, env, w).form.errorMessage == ConnectFailed
    ensures var r := CreateNft(form, env, w, parseEther);
      && r.calls == GetContracts(form, env, w).calls
      && r.form.errorMessage == CreateFailed
  {
  }

  /** A fresh page refuses to submit: the image check fires first and nothing is called. */
  lemma FreshFormIsRejected(env: Env, w: World, parseEther: string -> Option<int>)
    ensures CreateNft(InitialForm, env, w, parseEther)
         == Submission([], InitialForm.(errorMessage := ImageMissing))
  {
  }
}
