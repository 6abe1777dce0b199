/**
 * The values the hook exchanges with the Solana SDKs, as opaque data: public keys,
 * account metadata entries and the instructions of a transaction.
 */
module Solana {
  /** An account address; `toBuffer()` gives its bytes. */
  datatype PublicKey = PublicKey(bytes: seq<bv8>)

  /**
   * Well-known addresses the SDKs fix: the system program, the SPL Token program,
   * the associated-token-account program, the Token Metadata program and the
   * rent and clock sysvars.
   */
  datatype Programs = Programs(
    systemProgram: PublicKey,
    tokenProgram: PublicKey,
    associatedTokenProgram: PublicKey,
    tokenMetadataProgram: PublicKey,
    rentSysvar: PublicKey,
    clockSysvar: PublicKey)

  /** One entry of an instruction's key list. */
  datatype AccountMeta = AccountMeta(pubkey: PublicKey, isSigner: bool, isWritable: bool)

  /**
   * An instruction of a transaction. The three SPL builders are recorded by their
   * arguments (their byte encoding belongs to the SDK); a hand-built instruction
   * carries its keys, program and data.
   */
  datatype Instruction =
    | CreateAccount(fromPubkey: PublicKey, newAccountPubkey: PublicKey, space: nat, lamports: nat, programId: PublicKey)
    | InitializeMint(programId: PublicKey, mint: PublicKey, decimals: nat, mintAuthority: PublicKey, freezeAuthority: PublicKey)
    | MintTo(programId: PublicKey, mint: PublicKey, destination: PublicKey, authority: PublicKey, multiSigners: seq<PublicKey>, amount: nat)
    | TransactionInstruction(keys: seq<AccountMeta>, programId: PublicKey, data: seq<bv8>)

  /** The seed list of a program-address derivation. */
  type Seeds = seq<seq<bv8>>

  /** `Buffer.from(s)` for an ASCII string: one byte per character. */
  function AsciiBytes(s: string): (r: seq<bv8>)
    requires forall i :: 0 <= i < |s| ==> s[i] as int < 128
    ensures |r| == |s|
  {
    if s == [] then [] else [(s[0] as int) as bv8] + AsciiBytes(s[1..])
  }

  /** The public keys of a key list that are marked as signers, in order. */
  function Signers(keys: seq<AccountMeta>): seq<PublicKey> {
    if keys == [] then []
    else (if keys[0].isSigner then [keys[0].pubkey] else []) + Signers(keys[1..])
  }

  /** The public keys of a key list that are marked writable, in order. */
  function Writable(keys: seq<AccountMeta>): seq<PublicKey> {
    if keys == [] then []
    else (if keys[0].isWritable then [keys[0].pubkey] else []) + Writable(keys[1..])
  }

  lemma {:induction false} NoSigners(keys: seq<AccountMeta>)
    requires forall k :: 0 <= k < |keys| ==> !keys[k].isSigner
    ensures Signers(keys) == []
  {
    if keys != [] { NoSigners(keys[1..]); }
  }

  lemma {:induction false} NoneWritable(keys: seq<AccountMeta>)
    requires forall k :: 0 <= k < |keys| ==> !keys[k].isWritable
    ensures Writable(keys) == []
  {
    if keys != [] { NoneWritable(keys[1..]); }
  }
}
