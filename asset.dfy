/** A priced asset as the market-data service reports it. The class behaves
    as a value keyed by its id: `equals` and `hashCode` look at the id only. */
module Assets {
  import opened JavaText

  datatype Asset = Asset(id: string, name: string, isCrypto: bool, price: real)

  /** `Asset.equals`. */
  predicate SameAsset(a: Asset, b: Asset) {
    a.id == b.id
  }

  /** `Asset.hashCode`: `Objects.hash(id)`. */
  function HashCode(a: Asset): Int32 {
    ObjectsHash(a.id)
  }

  /** `Object.toString`, which `Asset` inherits: the class name, `@` and the
      hash code in hexadecimal. */
  function AssetText(a: Asset): string {
    "bg.sofia.uni.fmi.mjt.crypto.dto.Asset@" + HexString(Unsigned(HashCode(a)))
  }

  /** Equality is an equivalence that sees the id and nothing else. */
  lemma SameAssetIsIdEquality(a: Asset, b: Asset, c: Asset)
    ensures SameAsset(a, a)
    ensures SameAsset(a, b) == SameAsset(b, a)
    ensures SameAsset(a, b) && SameAsset(b, c) ==> SameAsset(a, c)
    ensures SameAsset(a, b) <==> a.id == b.id
  {
  }

  lemma SameAssetIgnoresDetails(a: Asset, name: string, isCrypto: bool, price: real)
    ensures SameAsset(a, Asset(a.id, name, isCrypto, price))
  {
  }

  /** `hashCode` agrees with `equals`, so do the rendered texts. */
  lemma HashAgreesWithEquality(a: Asset, b: Asset)
    requires SameAsset(a, b)
    ensures HashCode(a) == HashCode(b)
    ensures AssetText(a) == AssetText(b)
  {
  }
}
