# nexora: create-and-list, route guard and deployment, modelled in Dafny

This project models the decision and sequencing logic of the nexora NFT marketplace:

- **The "Create and List NFT" page** (`client/src/app/create-nft/page.tsx`). Its state hooks
  are one immutable `Form` record. `createNFT`, `getContracts` and `uploadToIPFS` are pure
  functions from the form before to the form after. `mintThenList` sets no state, so its model
  returns only the calls it issued and whether it ran to the end. The remote world is a `World` record with one outcome per remote step: the
  wallet's account prompt, the content-store upload, `mint`, its confirmation, `tokenCount()`,
  `setApprovalForAll`, its confirmation, `makeItem` and its confirmation. A handler also returns
  the remote calls it issued, in order. So the ordering rules are statements about that trace:
  "nothing after a failure", "no listing without a confirmed mint and approval" and "the listed
  id is the count read after the mint". Every submission's trace is a prefix of one fixed
  nine-call `Plan`.
- **The route guard** (`client/src/components/layouts/auth-layout.tsx`). One evaluation is a
  pure function of `(loading, isAuthenticated, pathname)`. It yields the `router.push`
  targets its effect issues and the view it renders (spinner or children).
- **The deployment script** (`contracts/scripts/deploy.ts`). The chain is a function from a
  deployment request (contract name and constructor arguments) to its landing: an address and
  transaction hash, or a throw. The loop is modelled twice: as a fold (`Deploy.Fold`), and as
  the `for` loop as written (`Deploy.DeployLoop`), which is proved equal to the fold. The
  script's result is the pair of files it would write, or nothing.

Modules: `Wrappers` (`Option`), `Strings` (character search, ASCII upper-casing), `EnvFile`
(the `KEY=value` line format and a reader for it), `CreateNft`, `AuthLayout`, `Deploy`.

Notes on the code's behaviour:

- Every failure after validation becomes the one message "Failed to create and list NFT.
  Please try again.", including a failed wallet connection. `getContracts` sets its own
  message first, and the catch block overwrites it. There is no retry or resume: the next
  press starts again from the account request.
- The price is checked for truthiness only, not positivity, so `"0"` is accepted.
- `uploadToIPFS` clears the error message before it looks for a file. Choosing no file
  therefore still clears the error, and nothing else changes.

## Model

| member | source | states |
|---|---|---|
| CreateNft.Validate | client/src/app/create-nft/page.tsx:95-110 | The reported field is empty and every field checked before it (image, name, description, price) is filled; no field is reported exactly when all four are filled. |
| CreateNft.PriceCheckIsTruthinessOnly | client/src/app/create-nft/page.tsx:107-110 | With the other fields filled, the form passes exactly when the price is non-null and non-empty: "0" passes, null and "" are rejected. |
| CreateNft.GetContracts | client/src/app/create-nft/page.tsx:39-72 | With no wallet it fails before any call. Otherwise it issues only the account request, and it yields handles, at the configured marketplace and NFT addresses, exactly when access is granted. On success the form is unchanged; on either failure the connection error message is set. |
| CreateNft.GatewayPath | client/src/app/create-nft/page.tsx:138 | A gateway URL is recognised exactly when it starts with the gateway prefix, and the recovered path rebuilds the same URL. |
| CreateNft.GatewayUri | client/src/app/create-nft/page.tsx:83 | The gateway URL template, shared by the image (line 83) and the metadata URI (line 138). Its properties are in GatewayPath and GatewayRoundTrip: the path is recoverable from it. |
| CreateNft.GatewayRoundTrip | client/src/app/create-nft/page.tsx:83 | The stored path is recoverable from the URL built from it, so the URL determines the upload. |
| CreateNft.PlanPrefixFacts | client/src/app/create-nft/page.tsx:115-155 | A trace that follows the plan and stops at its first failure is in strict call order, stores the planned metadata, mints at the planned URI and approves the marketplace with `true`. Its listing names the NFT contract, the token count read after the mint and the converted price, and it comes only after a confirmed mint and a confirmed approval. |
| CreateNft.MintThenList | client/src/app/create-nft/page.tsx:137-155 | It issues a prefix of mint, wait, tokenCount, approve, wait, makeItem, wait, with the mint at the gateway URI of the stored path. No call follows a failing one, and an attempt that does not complete ends at the step that threw: its last call was not answered, or the price failed to convert right after the confirmed approval. No listing happens unless the price converts. It completes exactly when all seven calls were made and the last was confirmed. |
| CreateNft.TryCreate | client/src/app/create-nft/page.tsx:115-121 | The `try` block after validation. With no wallet there is no call; otherwise the trace follows the plan and stops at its first failure, ending at the call that threw (or right after the approval when the price does not convert). The metadata holds the form's fields, the mint URI is the gateway URL of the stored path, approval goes to the marketplace, and a listing uses the count read after a confirmed mint and approval. It completes exactly when all nine calls were answered. |
| CreateNft.Failed | client/src/app/create-nft/page.tsx:129-134 | The `catch` branch and the final loading reset. Its effect is stated by CreateNft: fields, price and success message are kept, and the generic error is shown. |
| CreateNft.Succeeded | client/src/app/create-nft/page.tsx:124-134 | The success path and the final loading reset. Its effect is stated by CreateNft: fields and price are cleared, and the success message is set. |
| CreateNft.CreateNft | client/src/app/create-nft/page.tsx:93-135 | A validation failure issues no call and changes only the error message. Otherwise calls are in strict order. With a wallet, each step runs until one throws: no call follows a failing one, and a failed submission ends at an unanswered call or, when the price does not convert, right after the confirmed approval. The metadata holds the form's fields, the mint URI is the gateway URL of the stored path, approval goes to the marketplace, and a listing uses the token count read after a confirmed mint and approval. Loading ends false. Success clears the fields and sets the success message; any failure keeps the fields and shows the generic error. |
| CreateNft.CreateSucceedsIff | client/src/app/create-nft/page.tsx:115-135 | All nine calls are made and answered exactly when the form is complete, a wallet is present and every remote step and the price conversion succeed. |
| CreateNft.UploadToIpfs | client/src/app/create-nft/page.tsx:74-91 | It always clears the error, and with no file it sends nothing and changes nothing else. With a file it sends that file and ends with loading false. On success the image becomes a gateway URL that decodes to the stored path; on failure the image is kept and the upload error is shown. Name, description, price and success message never change. |
| CreateNft.ImageFlowsIntoMetadata | client/src/app/create-nft/page.tsx:83-120 | After a successful image upload, the metadata stored on submission carries the gateway URL of the uploaded image. |
| CreateNft.StaleSuccessBanner | client/src/app/create-nft/page.tsx:124-131 | Any failure after validation, following an earlier success, leaves the earlier success message shown next to the new error. |
| CreateNft.ConnectMessageOverwritten | client/src/app/create-nft/page.tsx:67-132 | When the wallet is missing or refuses access, `getContracts` sets the connection message, yet the submission issues exactly `getContracts`' calls and ends showing the generic error: the `catch` of `createNFT` overwrites the message. |
| CreateNft.FreshFormIsRejected | client/src/app/create-nft/page.tsx:26-32 | Submitting the initial, empty form issues no call and reports the missing image. |
| AuthLayout.Redirects | client/src/components/layouts/auth-layout.tsx:19-34 | At most one redirect per evaluation, none while loading. A redirect goes to /login exactly for a guest on a non-public route, and to /dashboard exactly for a signed-in user on /login or /register. |
| AuthLayout.Render | client/src/components/layouts/auth-layout.tsx:36-54 | The children are rendered exactly when not loading and the user is signed in or the route is public; otherwise the spinner is. |
| AuthLayout.Decide | client/src/components/layouts/auth-layout.tsx:14-54 | The single redirect option loses nothing of the effect's pushes, and the view is the render's. While loading, the decision is no redirect and the spinner. |
| AuthLayout.LoginRedirectHidesChildren | client/src/components/layouts/auth-layout.tsx:26-52 | Whoever is sent to /login is shown the spinner, never the protected children. |
| AuthLayout.RedirectTargetsSettle | client/src/components/layouts/auth-layout.tsx:8-33 | Arriving at a redirect target issues no further redirect. |
| AuthLayout.DashboardRedirectKeepsChildren | client/src/components/layouts/auth-layout.tsx:31-54 | A signed-in user on /login or /register is redirected to /dashboard while the page's children stay rendered. |
| Strings.ToUpper | contracts/scripts/deploy.ts:67 | Upper-casing keeps the length, maps each character by its ASCII upper-case form and leaves no lower-case letter. |
| Strings.ToUpperIdempotent | contracts/scripts/deploy.ts:67 | Upper-casing twice is upper-casing once, and it introduces no character that is not a letter, so a key stays free of `=` and line breaks. |
| EnvFile.EntryOfJoin | contracts/scripts/deploy.ts:67-68 | Splitting `KEY=value` at the first `=` gives back the key and value, for any key without `=`. |
| EnvFile.Line | contracts/scripts/deploy.ts:68 | The `KEY=value` line format the script appends. Its meaning is stated by EntryOfJoin and ParseLine: the line reads back as exactly its one entry. |
| EnvFile.ParseLine | contracts/scripts/deploy.ts:68 | A written `KEY=address` line reads back as exactly that one entry, ahead of whatever follows. |
| EnvFile.ParseAppend | contracts/scripts/deploy.ts:87 | Joining the old file, a newline and the new lines reads back as the old entries followed by the new, whether or not the old file ended in a newline. |
| Deploy.DeployLoop | contracts/scripts/deploy.ts:50-84 | The loop as written, stopping at the first throw, computes exactly the fold; without a throw it makes one request per name. |
| Deploy.Fold | contracts/scripts/deploy.ts:50-84 | The loop as a fold that stops at the first throw. Its properties are in DeployLoop (equal to the loop as written), FoldStaysFailed, FoldRequests, FoldStopsAtThrow, FoldRecords and FoldEnvData. |
| Deploy.Step | contracts/scripts/deploy.ts:51-83 | One iteration of the loop body: the request is made, then the line and record are added, or the run fails with the contract's name. It is characterised through Fold's lemmas, FoldRequests, FoldStopsAtThrow and FoldRecords. |
| Deploy.ConstructorArgs | contracts/scripts/deploy.ts:57-59 | Only Marketplace gets a constructor argument, the fee. Stated for the script's list by MainDeploysInOrder: NFT with no arguments, then Marketplace with 1. |
| Deploy.EnvKey | contracts/scripts/deploy.ts:67 | The `.env` key derived from a contract name. ClientReadsDeployedKeys states that it gives the two keys the create page reads. |
| Deploy.RecordFor | contracts/scripts/deploy.ts:71-79 | The deployment record of one contract. Its properties are in FoldRecords and MainRecords: the landed address and hash, with the fee only on Marketplace. |
| Deploy.FoldStaysFailed | contracts/scripts/deploy.ts:80-83 | After a deployment throws, the rest of the list changes nothing. |
| Deploy.FoldRequests | contracts/scripts/deploy.ts:50-59 | Requests follow the list order, each with its own constructor arguments, up to and including the one that threw. Without a throw every name is requested, and a failure names the last contract requested. |
| Deploy.FoldStopsAtThrow | contracts/scripts/deploy.ts:50-83 | Every request before the last landed. The last one threw exactly when the run failed. |
| Deploy.FoldRecords | contracts/scripts/deploy.ts:71-79 | Every record belongs to a listed name and holds the address and hash its deployment landed with. Only the Marketplace record carries the fee, and a run without a throw records every name. |
| Deploy.FoldEnvData | contracts/scripts/deploy.ts:66-68 | The accumulated lines read back as one `(key, address)` entry per contract, in deployment order. |
| Deploy.EnvDataIsWholeLines | contracts/scripts/deploy.ts:68 | The accumulated text is always empty or ends in a newline. |
| Deploy.ClientReadsDeployedKeys | contracts/scripts/deploy.ts:67 | The keys derived for NFT and Marketplace are exactly the two variables the create page reads its contract addresses from. |
| Deploy.Main | contracts/scripts/deploy.ts:7-96 | A warning is given exactly when the balance is below 0.01 ether in wei. Files are written exactly when there is no error. The written `.env.local` starts with the old contents (empty when missing), followed by a newline, and the info names the network and deployer. |
| Deploy.MainEnvText | contracts/scripts/deploy.ts:66-88 | The written `.env.local` text is exactly the old contents (empty when missing), a newline, then `NEXT_PUBLIC_NFT_ADDRESS=<nft address>` and `NEXT_PUBLIC_MARKETPLACE_ADDRESS=<marketplace address>`, each on its own newline-terminated line. |
| Deploy.MainDeploysInOrder | contracts/scripts/deploy.ts:8-59 | NFT is requested first with no arguments, then Marketplace with the fee of 1, and nothing else. |
| Deploy.MainAllOrNothing | contracts/scripts/deploy.ts:50-95 | Files are written exactly when both deployments land. Every request but the last landed, so no deployment follows a throw. A run without an error requested both contracts. Otherwise the error names the contract whose deployment threw, and that was the last request made. |
| Deploy.MainRecords | contracts/scripts/deploy.ts:40-79 | The written info has a record for exactly NFT and Marketplace, each at its landed address and hash, with the fee only on Marketplace. |
| Deploy.MainEnvFile | contracts/scripts/deploy.ts:32-88 | The written `.env.local` reads back as the old entries, then the NFT and Marketplace addresses under the keys the create page reads. |
| Deploy.BalanceOnlyWarns | contracts/scripts/deploy.ts:24-29 | A low balance changes nothing but the warning: the same deployments are made and the same files are written. |

## Left out

- The content-store client and its `Basic` authorization header (page.tsx lines 8-19) are foreign library calls. An upload is an outcome in `World`, or the `added` argument of `UploadToIpfs`, and content-addressed idempotence is not modelled.
- Wallet, provider and contract construction are abstract. A contract handle is the address it was built with. The ABI imports are commented out in the source (page.tsx lines 22-23), which would throw at construction; this is not modelled, and construction always succeeds.
- `parseEther` is an uninterpreted function parameter (`string -> Option<int>`, where `None` means it throws). The deployment threshold uses the value of `parseEther("0.01")`, 10^16 wei, and decimal-to-wei parsing is not modelled.
- The race between mint confirmation and the `tokenCount()` read is not modelled. The read is sequential and returns an abstract value, and interleaved minters are not modelled.
- React rendering, JSX, CSS and the hooks' scheduling are not modelled. The two banners and the `price || ''` input binding are not modelled. The form's intermediate states (`isLoading` true during the awaits) are not modelled; only the state after each handler is.
- Event objects and `preventDefault` in `uploadToIPFS` are not modelled. The chosen file is an `Option` of bytes.
- The deployment script's provider and wallet setup, `getAddress`/`getBalance`, `dotenv`, `console`, `process.exit`, the timestamp, JSON pretty-printing and the Etherscan verification hints (deploy.ts lines 98-107) are not modelled. The deployer and balance are inputs, and a throw during setup is not modelled. File writes are the contents that would be written.
- The deployment script imports `ethers` from the `ethers` package (deploy.ts line 1), which has no `getContractFactory`; that helper comes from Hardhat's plugin. As written, the first iteration would throw and no file would be written. The model treats `getContractFactory` as working: `chain` stands for the whole remote part of one iteration (factory, `deploy`, `waitForDeployment`, `getAddress`), and the import failure is the special case of a chain that always throws.
- Every remote step is assumed to settle, by answering or by throwing. In the code nothing times out, so an `await` that never settles leaves `isLoading` true and the button disabled. Examples are an account prompt nobody answers or `mintTx.wait()` on a dropped transaction. The promises that loading ends false (CreateNft, UploadToIpfs) rest on this assumption.
- The deployment `chain` is a function of the request alone. A name listed twice would land twice at the same address, and the general-list lemmas (FoldRecords, FoldEnvData) rely on that. The script's list has two distinct names, so the statements about `main` are unaffected.
- Strings.ToUpper: models only ASCII upper-casing, because JavaScript's full Unicode case mapping is not needed for the ASCII contract names.
- EnvFile.Parse is a minimal `KEY=value` reader used to state what the written file means. It reads no quotes, comments or `export`, and it says nothing about which duplicate key wins.
- The navigation bar, the landing page, the Hardhat configuration and the HTTP stub are static UI, configuration and a one-route handler, so they are not part of this model.
