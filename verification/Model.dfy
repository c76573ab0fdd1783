/** Values shared by the store and the request protocol. */
module Model {
  import opened VariantKey

  datatype SessionState =
    | Preparing | Created | Downloading | Downloaded | Queued | Converting | Completed | Failed

  datatype Session = Session(
    id: string,
    url: string,
    assetHash: string,
    variantHash: string,
    state: SessionState,
    sourcePath: Path,
    outputPath: Path,
    duration: int)

  datatype AssetState = Unset | AssetPreparing | AssetDownloaded | AssetFailed | AssetExpired

  datatype Asset = Asset(path: Path, state: AssetState)

  type Sessions = map<string, Session>

  /** CreateSession: an existing id is left alone. */
  function Inserted(m: Sessions, s: Session): Sessions {
    if s.id in m then m else m[s.id := s]
  }

  /** UpdateSession: an id that is not stored stays that way. */
  function Updated(m: Sessions, s: Session): Sessions {
    if s.id in m then m[s.id := s] else m
  }

  /** DeleteSession. */
  function Removed(m: Sessions, id: string): Sessions {
    m - {id}
  }

  /** GetAsset: an absent entry reads as an empty path without a state. */
  function AssetOf(assets: map<string, Asset>, hash: string): Asset {
    if hash in assets then assets[hash] else Asset(NoPath, Unset)
  }

  /** GetVariant: an absent entry reads as the empty path. */
  function VariantOf(variants: map<string, Path>, hash: string): Path {
    if hash in variants then variants[hash] else NoPath
  }
}
