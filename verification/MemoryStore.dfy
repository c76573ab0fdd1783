/**
  MemoryStore of store.go. Session objects are shared by reference: CreateSession and
  UpdateSession keep the caller's object, and GetSession hands out a copy.
 */
module MemoryStore {
  import opened VariantKey
  import opened Model

  datatype Result = Ok | Exists | NotFound

  class ConversionSession {
    const id: string
    const url: string
    var assetHash: string
    var variantHash: string
    var state: SessionState
    var sourcePath: Path
    var outputPath: Path
    var duration: int

    function Value(): Session
      reads this
    {
      Session(id, url, assetHash, variantHash, state, sourcePath, outputPath, duration)
    }

    constructor (s: Session)
      ensures Value() == s
    {
      id, url, assetHash, variantHash := s.id, s.url, s.assetHash, s.variantHash;
      state, sourcePath, outputPath, duration := s.state, s.sourcePath, s.outputPath, s.duration;
    }
  }

  class MemoryStore {
    var sessions: map<string, ConversionSession>
    var urlToId: map<string, string>
    var variantToOut: map<string, Path>
    var assetMap: map<string, Asset>

    /** Every session is filed under its own id; so no two entries share an object. */
    ghost predicate Valid()
      reads this`sessions
    {
      forall id | id in sessions :: sessions[id].id == id
    }

    /** The stored sessions as values. */
    ghost function View(): Sessions
      reads this`sessions, sessions.Values
    {
      map id | id in sessions :: sessions[id].Value()
    }

    constructor ()
      ensures Valid() && View() == map[]
      ensures urlToId == map[] && variantToOut == map[] && assetMap == map[]
    {
      sessions, urlToId, variantToOut, assetMap := map[], map[], map[], map[];
    }

    method CreateSession(s: ConversionSession) returns (r: Result)
      requires Valid()
      modifies this`sessions
      ensures Valid() && View() == Inserted(old(View()), s.Value())
      ensures r == if s.id in old(sessions) then Exists else Ok
      ensures sessions == if s.id in old(sessions) then old(sessions) else old(sessions)[s.id := s]
    {
      if s.id in sessions {
        return Exists;
      }
      sessions := sessions[s.id := s];
      return Ok;
    }

    /** Stores the caller's object itself: later writes through it show in the store. */
    method UpdateSession(s: ConversionSession) returns (r: Result)
      requires Valid()
      modifies this`sessions
      ensures Valid() && View() == Updated(old(View()), s.Value())
      ensures r == if s.id in old(sessions) then Ok else NotFound
      ensures sessions == if s.id in old(sessions) then old(sessions)[s.id := s] else old(sessions)
    {
      if s.id !in sessions {
        return NotFound;
      }
      sessions := sessions[s.id := s];
      return Ok;
    }

    /** Returns a new object: nobody else holds it, and it is not the stored one. */
    method GetSession(id: string) returns (s: ConversionSession?)
      requires Valid()
      ensures s == null <==> id !in sessions
      ensures s != null ==> fresh(s) && s.Value() == View()[id]
    {
      if id !in sessions {
        return null;
      }
      s := new ConversionSession(sessions[id].Value());
    }

    /** Removes the session, and exactly the URL entries that point at it. */
    method DeleteSession(id: string)
      requires Valid()
      modifies this`sessions, this`urlToId
      ensures Valid() && View() == Removed(old(View()), id) && sessions == old(sessions) - {id}
      ensures urlToId == map u | u in old(urlToId) && old(urlToId)[u] != id :: old(urlToId)[u]
    {
      sessions := sessions - {id};
      var left := urlToId.Keys;
      while left != {}
        invariant Valid() && View() == Removed(old(View()), id) && sessions == old(sessions) - {id}
        invariant left <= old(urlToId).Keys
        invariant forall u :: u in urlToId <==> u in old(urlToId) && (u in left || old(urlToId)[u] != id)
        invariant forall u | u in urlToId :: urlToId[u] == old(urlToId)[u]
        decreases left
      {
        var u :| u in left;
        if urlToId[u] == id {
          urlToId := urlToId - {u};
        }
        left := left - {u};
      }
    }

    method FindByURL(url: string) returns (id: string, ok: bool)
      ensures ok == (url in urlToId)
      ensures id == if ok then urlToId[url] else ""
    {
      ok := url in urlToId;
      id := if ok then urlToId[url] else "";
    }

    method SetURLMap(url: string, id: string)
      modifies this`urlToId
      ensures urlToId == old(urlToId)[url := id]
    {
      urlToId := urlToId[url := id];
    }

    method SetVariant(hash: string, path: Path)
      modifies this`variantToOut
      ensures variantToOut == old(variantToOut)[hash := path]
    {
      variantToOut := variantToOut[hash := path];
    }

    method GetVariant(hash: string) returns (path: Path, ok: bool)
      ensures path == VariantOf(variantToOut, hash) && ok == (hash in variantToOut)
      ensures path == if ok then variantToOut[hash] else NoPath
    {
      ok := hash in variantToOut;
      path := if ok then variantToOut[hash] else NoPath;
    }

    method SetAsset(hash: string, path: Path, state: AssetState)
      modifies this`assetMap
      ensures assetMap == old(assetMap)[hash := Asset(path, state)]
    {
      assetMap := assetMap[hash := Asset(path, state)];
    }

    method GetAsset(hash: string) returns (a: Asset, ok: bool)
      ensures a == AssetOf(assetMap, hash) && ok == (hash in assetMap)
      ensures a == if ok then assetMap[hash] else Asset(NoPath, Unset)
    {
      ok := hash in assetMap;
      a := if ok then assetMap[hash] else Asset(NoPath, Unset);
    }
  }
}
