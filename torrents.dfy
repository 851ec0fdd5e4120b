/** A torrent source: a URL (or magnet link) or the path of a `.torrent` file. */
module Torrents {

  /** Which kind of source the caller asks `New` for. */
  datatype TorrentType = Url | TorrentFile

  /** The stored source. The file at a `RawTorrent` path is not read here. */
  datatype TorrentInner = Url(url: string) | RawTorrent(path: string)

  datatype Torrent = Torrent(inner: TorrentInner)

  /** The text a source holds, whatever its kind. */
  function Payload(t: TorrentInner): string
  {
    match t
    case Url(s) => s
    case RawTorrent(s) => s
  }

  /** `Torrent::new`: stores the text unchanged, tagged with the requested kind. */
  function New(urlOrPath: string, torrentType: TorrentType): (r: Torrent)
    ensures torrentType.Url? ==> r.inner == TorrentInner.Url(urlOrPath)
    ensures torrentType.TorrentFile? ==> r.inner == TorrentInner.RawTorrent(urlOrPath)
  {
    match torrentType
    case Url => Torrent(TorrentInner.Url(urlOrPath))
    case TorrentFile => Torrent(TorrentInner.RawTorrent(urlOrPath))
  }

  /** `Torrent::get_inner`: a copy of the stored source, from which `New` rebuilds the torrent. */
  function GetInner(t: Torrent): (inner: TorrentInner)
    ensures New(Payload(inner), if inner.Url? then TorrentType.Url else TorrentType.TorrentFile) == t
  {
    t.inner
  }

  /** `Torrent::get_type`: the kind of the stored source. */
  function GetType(t: Torrent): (ty: TorrentType)
    ensures ty.Url? <==> GetInner(t).Url?
  {
    match GetInner(t)
    case Url(_) => TorrentType.Url
    case RawTorrent(_) => TorrentType.TorrentFile
  }

  /** A torrent made by `New` reports the kind and the text it was made from. */
  lemma NewThenGet(urlOrPath: string, torrentType: TorrentType)
    ensures GetType(New(urlOrPath, torrentType)) == torrentType
    ensures Payload(GetInner(New(urlOrPath, torrentType))) == urlOrPath
  {
  }

  /** Every torrent is the one `New` makes from its own kind and text. */
  lemma GetThenNew(t: Torrent)
    ensures New(Payload(GetInner(t)), GetType(t)) == t
  {
  }
}
