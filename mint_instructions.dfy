/**
 * What `mintToken` hands to the candy-machine program: the derived addresses, the
 * four-instruction batch that creates and fills a one-token mint, and the
 * accounts record of the `mintNft` call. Program-address derivation
 * (`findProgramAddress`) is the parameter `derive`.
 */
module MintInstructions {
  import opened Wrappers
  import opened Solana
  import JsString

  /** `MintLayout.span`: the size of an SPL Token mint account. */
  const MINT_SPAN: nat := 82

  const METADATA_SEED: seq<bv8> := AsciiBytes("metadata")
  const EDITION_SEED: seq<bv8> := AsciiBytes("edition")

  /** The seeds of `getMetadata`: the seed phrase, the Token Metadata program and the mint. */
  function MetadataSeeds(programs: Programs, mint: PublicKey): Seeds {
    [METADATA_SEED, programs.tokenMetadataProgram.bytes, mint.bytes]
  }

  /** `getMetadata`: the metadata account of a mint. */
  function GetMetadata(derive: (Seeds, PublicKey) -> PublicKey, programs: Programs, mint: PublicKey): (r: PublicKey)
    ensures r == derive([AsciiBytes("metadata"), programs.tokenMetadataProgram.bytes, mint.bytes], programs.tokenMetadataProgram)
  {
    derive(MetadataSeeds(programs, mint), programs.tokenMetadataProgram)
  }

  /**
   * `getMasterEdition`: derived under the same program from the metadata seeds
   * with `"edition"` appended.
   */
  function GetMasterEdition(derive: (Seeds, PublicKey) -> PublicKey, programs: Programs, mint: PublicKey): (r: PublicKey)
    ensures r == derive(MetadataSeeds(programs, mint) + [EDITION_SEED], programs.tokenMetadataProgram)
  {
    assert MetadataSeeds(programs, mint) + [EDITION_SEED]
        == [METADATA_SEED, programs.tokenMetadataProgram.bytes, mint.bytes, EDITION_SEED];
    derive([METADATA_SEED, programs.tokenMetadataProgram.bytes, mint.bytes, EDITION_SEED], programs.tokenMetadataProgram)
  }

  /** `getTokenWallet`: the associated token account of `wallet` for `mint`. */
  function GetTokenWallet(derive: (Seeds, PublicKey) -> PublicKey, programs: Programs, wallet: PublicKey, mint: PublicKey): (r: PublicKey)
    ensures r == derive([wallet.bytes, programs.tokenProgram.bytes, mint.bytes], programs.associatedTokenProgram)
  {
    var seeds := [wallet.bytes, programs.tokenProgram.bytes, mint.bytes];
    derive(seeds, programs.associatedTokenProgram)
  }

  /** `createAssociatedTokenAccountInstruction`: the hand-built instruction of the ATA program. */
  function CreateAssociatedTokenAccountInstruction(programs: Programs, associatedTokenAddress: PublicKey, payer: PublicKey,
                                                   walletAddress: PublicKey, splTokenMintAddress: PublicKey): (r: Instruction)
    ensures r.TransactionInstruction? && |r.keys| == 7
    ensures r.programId == programs.associatedTokenProgram && r.data == []
    ensures r.keys[0].pubkey == payer && r.keys[1].pubkey == associatedTokenAddress
    ensures r.keys[2].pubkey == walletAddress && r.keys[3].pubkey == splTokenMintAddress
    ensures r.keys[4].pubkey == programs.systemProgram && r.keys[5].pubkey == programs.tokenProgram
    ensures r.keys[6].pubkey == programs.rentSysvar
    ensures forall k :: 0 <= k < |r.keys| ==> (r.keys[k].isSigner <==> k == 0) && (r.keys[k].isWritable <==> k < 2)
  {
    var keys := [
      AccountMeta(payer, true, true),
      AccountMeta(associatedTokenAddress, false, true),
      AccountMeta(walletAddress, false, false),
      AccountMeta(splTokenMintAddress, false, false),
      AccountMeta(programs.systemProgram, false, false),
      AccountMeta(programs.tokenProgram, false, false),
      AccountMeta(programs.rentSysvar, false, false)
    ];
    TransactionInstruction(keys, programs.associatedTokenProgram, [])
  }

  /** The payer is the instruction's only signer; payer and new account its only writable keys. */
  lemma AtaInstructionRoles(programs: Programs, associatedTokenAddress: PublicKey, payer: PublicKey,
                            walletAddress: PublicKey, splTokenMintAddress: PublicKey)
    ensures var ix := CreateAssociatedTokenAccountInstruction(programs, associatedTokenAddress, payer, walletAddress, splTokenMintAddress);
      Signers(ix.keys) == [payer] && Writable(ix.keys) == [payer, associatedTokenAddress]
  {
    var ix := CreateAssociatedTokenAccountInstruction(programs, associatedTokenAddress, payer, walletAddress, splTokenMintAddress);
    var keys := ix.keys;
    NoSigners(keys[1..]);
    NoneWritable(keys[2..]);
    assert keys[1..][1..] == keys[2..];
  }

  /** The instruction list of `mintToken`. */
  function MintBatch(programs: Programs, wallet: PublicKey, mint: PublicKey, token: PublicKey, rent: nat): (r: seq<Instruction>)
    ensures |r| == 4
    // 1: a new account for the mint, paid by the wallet with the rent-exempt balance, owned by SPL Token
    ensures r[0] == CreateAccount(wallet, mint, MINT_SPAN, rent, programs.tokenProgram)
    // 2: that same account initialised as a zero-decimal mint, the wallet holding both authorities
    ensures r[1].InitializeMint? && r[1].mint == r[0].newAccountPubkey && r[1].decimals == 0
            && r[1].mintAuthority == wallet && r[1].freezeAuthority == wallet
    // 3: the wallet's associated token account, paid for by the wallet
    ensures r[2] == CreateAssociatedTokenAccountInstruction(programs, token, wallet, wallet, mint)
    // 4: exactly one token of the new mint into the account created by 3, signed by the mint authority
    ensures r[3].MintTo? && r[3].mint == r[0].newAccountPubkey && r[3].destination == r[2].keys[1].pubkey
            && r[3].authority == r[1].mintAuthority && r[3].multiSigners == [] && r[3].amount == 1
    ensures r[1].programId == r[3].programId == programs.tokenProgram
  {
    [
      CreateAccount(wallet, mint, MINT_SPAN, rent, programs.tokenProgram),
      InitializeMint(programs.tokenProgram, mint, 0, wallet, wallet),
      CreateAssociatedTokenAccountInstruction(programs, token, wallet, wallet, mint),
      MintTo(programs.tokenProgram, mint, token, wallet, [], 1)
    ]
  }

  /**
   * The environment-provided addresses: the configuration account and the raw
   * strings of the candy-machine id and treasury (`undefined` when unset).
   */
  datatype Config = Config(config: PublicKey, candyMachineId: Option<string>, treasuryAddress: Option<string>)

  /** The accounts record of `program.rpc.mintNft`; `wallet` is the treasury. */
  datatype MintNftAccounts = MintNftAccounts(
    config: PublicKey, candyMachine: string, payer: PublicKey, wallet: string, mint: PublicKey,
    metadata: PublicKey, masterEdition: PublicKey, mintAuthority: PublicKey, updateAuthority: PublicKey,
    tokenMetadataProgram: PublicKey, tokenProgram: PublicKey, systemProgram: PublicKey,
    rent: PublicKey, clock: PublicKey)

  /** Everything `mintNft` is called with. */
  datatype MintRequest = MintRequest(accounts: MintNftAccounts, signers: seq<PublicKey>, instructions: seq<Instruction>)

  /**
   * The request of `mintToken` for the connected `wallet` and a freshly generated
   * `mint` keypair, with `rent` the rent-exempt balance of a mint account.
   */
  function BuildMintRequest(derive: (Seeds, PublicKey) -> PublicKey, programs: Programs, cfg: Config,
                            wallet: PublicKey, mint: PublicKey, rent: nat): (r: MintRequest)
    ensures r.signers == [mint]
    ensures r.accounts.payer == r.accounts.mintAuthority == r.accounts.updateAuthority == wallet
    ensures r.accounts.mint == mint
    ensures r.accounts.config == cfg.config
    ensures r.accounts.tokenMetadataProgram == programs.tokenMetadataProgram
    ensures r.accounts.tokenProgram == programs.tokenProgram
    ensures r.accounts.systemProgram == programs.systemProgram
    ensures r.accounts.rent == programs.rentSysvar && r.accounts.clock == programs.clockSysvar
    ensures r.accounts.metadata == GetMetadata(derive, programs, mint)
    ensures r.accounts.masterEdition == GetMasterEdition(derive, programs, mint)
    ensures r.accounts.candyMachine == (if cfg.candyMachineId.Some? then cfg.candyMachineId.value else "")
    ensures r.accounts.wallet == (if cfg.treasuryAddress.Some? then cfg.treasuryAddress.value else "")
    ensures r.instructions == MintBatch(programs, wallet, mint, GetTokenWallet(derive, programs, wallet, mint), rent)
    // the token lands in the associated token account derived for this wallet and this mint
    ensures r.instructions[3].destination == derive([wallet.bytes, programs.tokenProgram.bytes, mint.bytes], programs.associatedTokenProgram)
  {
    var token := GetTokenWallet(derive, programs, wallet, mint);
    var metadata := GetMetadata(derive, programs, mint);
    var masterEdition := GetMasterEdition(derive, programs, mint);
    var accounts := MintNftAccounts(
      cfg.config, JsString.Or(cfg.candyMachineId, ""), wallet, JsString.Or(cfg.treasuryAddress, ""), mint,
      metadata, masterEdition, wallet, wallet,
      programs.tokenMetadataProgram, programs.tokenProgram, programs.systemProgram,
      programs.rentSysvar, programs.clockSysvar);
    MintRequest(accounts, [mint], MintBatch(programs, wallet, mint, token, rent))
  }
}
