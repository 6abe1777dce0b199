/**
 * The fixed-width layout of a Token Metadata account, as far as the creator filter
 * of `fetchHashTable` needs it: every field up to the creators is stored at its
 * maximum width, so the first creator's address sits at a constant byte offset.
 */
module MetadataLayout {
  const MAX_NAME_LENGTH: nat := 32
  const MAX_URI_LENGTH: nat := 200
  const MAX_SYMBOL_LENGTH: nat := 10
  /** A creator entry: a 32-byte address, a verified flag and a share byte. */
  const MAX_CREATOR_LEN: nat := 32 + 1 + 1

  /**
   * The memcmp offset expression of `fetchHashTable` with the creator index, fixed
   * at 0 there, as a parameter. The expression lists the uri before the symbol;
   * the account stores the symbol first (see `Header`), which moves no byte after them.
   */
  function CreatorOffset(index: nat): nat {
    1 + 32 + 32 + 4 + MAX_NAME_LENGTH + 4 + MAX_URI_LENGTH + 4 + MAX_SYMBOL_LENGTH + 2 + 1 + 4
      + index * MAX_CREATOR_LEN
  }

  /** The offset `fetchHashTable` filters on: the first creator's address. */
  function CreatorFilterOffset(): (r: nat)
    ensures r == 326 && MAX_CREATOR_LEN == 34
  {
    CreatorOffset(0)
  }

  datatype Field =
    | Key | UpdateAuthority | Mint
    | NameLength | Name | SymbolLength | Symbol | UriLength | Uri
    | SellerFeeBasisPoints | CreatorsPresent | CreatorsCount
    | CreatorAddress(i: nat) | CreatorVerified(i: nat) | CreatorShare(i: nat)

  function Width(f: Field): nat {
    match f
    case Key => 1
    case UpdateAuthority => 32
    case Mint => 32
    case NameLength => 4
    case Name => MAX_NAME_LENGTH
    case UriLength => 4
    case Uri => MAX_URI_LENGTH
    case SymbolLength => 4
    case Symbol => MAX_SYMBOL_LENGTH
    case SellerFeeBasisPoints => 2
    case CreatorsPresent => 1
    case CreatorsCount => 4
    case CreatorAddress(_) => 32
    case CreatorVerified(_) => 1
    case CreatorShare(_) => 1
  }

  /** The total width of a run of fields. */
  function SizeOf(fs: seq<Field>): nat {
    if fs == [] then 0 else SizeOf(fs[..|fs| - 1]) + Width(fs[|fs| - 1])
  }

  /** Every field that precedes the creator entries, in the order the account stores them. */
  function Header(): seq<Field> {
    [Key, UpdateAuthority, Mint, NameLength, Name, SymbolLength, Symbol, UriLength, Uri,
     SellerFeeBasisPoints, CreatorsPresent, CreatorsCount]
  }

  /** The field at position `k` of the creator entries. */
  function CreatorField(k: nat): Field {
    if k % 3 == 0 then CreatorAddress(k / 3)
    else if k % 3 == 1 then CreatorVerified(k / 3)
    else CreatorShare(k / 3)
  }

  /** The fields of `n` creator entries, three per creator. */
  function Creators(n: nat): (r: seq<Field>)
    ensures |r| == 3 * n
    ensures forall k :: 0 <= k < |r| ==> r[k] == CreatorField(k)
  {
    if n == 0 then []
    else
      var prev := Creators(n - 1);
      var r := prev + [CreatorAddress(n - 1), CreatorVerified(n - 1), CreatorShare(n - 1)];
      assert forall k :: 3 * (n - 1) <= k < 3 * n ==> r[k] == CreatorField(k) by {
        forall k | 3 * (n - 1) <= k < 3 * n ensures r[k] == CreatorField(k) {
          assert k / 3 == n - 1 && k % 3 == k - 3 * (n - 1);
        }
      }
      r
  }

  /** A metadata account with `n` creators, up to the end of the creator entries. */
  function Layout(n: nat): seq<Field> {
    Header() + Creators(n)
  }

  lemma {:induction false} SizeOfAppend(a: seq<Field>, b: seq<Field>)
    ensures SizeOf(a + b) == SizeOf(a) + SizeOf(b)
    decreases |b|
  {
    if b == [] {
      assert a + b == a;
    } else {
      var b' := b[..|b| - 1];
      assert (a + b)[..|a + b| - 1] == a + b';
      SizeOfAppend(a, b');
    }
  }

  lemma SizeOfSnoc(a: seq<Field>, f: Field)
    ensures SizeOf(a + [f]) == SizeOf(a) + Width(f)
  {
  }

  lemma HeaderSize()
    ensures SizeOf(Header()) == CreatorOffset(0)
  {
    var h: seq<Field> := [];
    SizeOfSnoc(h, Key); h := h + [Key];
    SizeOfSnoc(h, UpdateAuthority); h := h + [UpdateAuthority];
    SizeOfSnoc(h, Mint); h := h + [Mint];
    SizeOfSnoc(h, NameLength); h := h + [NameLength];
    SizeOfSnoc(h, Name); h := h + [Name];
    SizeOfSnoc(h, SymbolLength); h := h + [SymbolLength];
    SizeOfSnoc(h, Symbol); h := h + [Symbol];
    SizeOfSnoc(h, UriLength); h := h + [UriLength];
    SizeOfSnoc(h, Uri); h := h + [Uri];
    SizeOfSnoc(h, SellerFeeBasisPoints); h := h + [SellerFeeBasisPoints];
    SizeOfSnoc(h, CreatorsPresent); h := h + [CreatorsPresent];
    SizeOfSnoc(h, CreatorsCount); h := h + [CreatorsCount];
    assert h == Header();
  }

  lemma {:induction false} CreatorsSize(n: nat)
    ensures SizeOf(Creators(n)) == n * MAX_CREATOR_LEN
  {
    if n > 0 {
      var entry := [CreatorAddress(n - 1), CreatorVerified(n - 1), CreatorShare(n - 1)];
      assert Creators(n) == Creators(n - 1) + entry;
      CreatorsSize(n - 1);
      SizeOfAppend(Creators(n - 1), entry);
      CreatorEntrySize(n - 1);
    }
  }

  /**
   * In an account with `n` creators, creator `i` (for `i < n`) has its address at
   * exactly the offset the filter expression gives for index `i`: the bytes before
   * it are the header plus `i` whole creator entries.
   */
  lemma CreatorAddressOffset(n: nat, i: nat)
    requires i < n
    ensures var k := |Header()| + 3 * i;
      k < |Layout(n)| && Layout(n)[k] == CreatorAddress(i) && SizeOf(Layout(n)[..k]) == CreatorOffset(i)
  {
    var k := |Header()| + 3 * i;
    assert Layout(n)[k] == Creators(n)[3 * i] == CreatorField(3 * i);
    assert Creators(n)[..3 * i] == Creators(i);
    assert Layout(n)[..k] == Header() + Creators(i);
    SizeOfAppend(Header(), Creators(i));
    HeaderSize();
    CreatorsSize(i);
  }

  /** A creator entry takes `MAX_CREATOR_LEN` bytes. */
  lemma CreatorEntrySize(i: nat)
    ensures SizeOf([CreatorAddress(i), CreatorVerified(i), CreatorShare(i)]) == MAX_CREATOR_LEN
  {
    var e: seq<Field> := [];
    SizeOfSnoc(e, CreatorAddress(i)); e := e + [CreatorAddress(i)];
    SizeOfSnoc(e, CreatorVerified(i)); e := e + [CreatorVerified(i)];
    SizeOfSnoc(e, CreatorShare(i)); e := e + [CreatorShare(i)];
    assert e == [CreatorAddress(i), CreatorVerified(i), CreatorShare(i)];
  }
}
