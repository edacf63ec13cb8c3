/**
 * The download links `GetMatchMetaData` derives from a match-metadata reply:
 *   ReplayURL   = http://replay{cluster_id}.valve.net/{APPID}/{matchId}_{replay_salt}.dem.bz2
 *   MetadataURL = http://replay{cluster_id}.valve.net/{APPID}/{matchId}_{metadata_salt}.meta.bz2
 * Their partner is `ParseDownloadURL`, which reads the fields back out of a link.
 */
module MatchUrls {

  import opened Wrappers
  import opened Messages
  import opened Decimal

  const Scheme: string := "http://replay"
  const ReplayExtension: string := ".dem.bz2"
  const MetadataExtension: string := ".meta.bz2"

  /** The host and application part that follows the cluster id. */
  function HostPath(): string {
    ".valve.net/" + Show(APPID) + "/"
  }

  /** The shape both links share; `extension` is the only part besides the salt that differs. */
  function DownloadURL(clusterId: nat, matchId: nat, salt: nat, extension: string): string {
    Scheme + Show(clusterId) + HostPath() + FileName(matchId, salt, extension)
  }

  /** The last path segment: `{matchId}_{salt}` and the extension. */
  function FileName(matchId: nat, salt: nat, extension: string): string {
    Show(matchId) + "_" + Show(salt) + extension
  }

  function ReplayURL(clusterId: uint32, matchId: uint32, replaySalt: uint32): string {
    DownloadURL(clusterId, matchId, replaySalt, ReplayExtension)
  }

  function MetadataURL(clusterId: uint32, matchId: uint32, metadataSalt: uint32): string {
    DownloadURL(clusterId, matchId, metadataSalt, MetadataExtension)
  }

  /** The result of `GetMatchMetaData`: the reply and the two links built from it. */
  datatype MatchMetaData = MatchMetaData(data: MatchMetaDataResponse, replayURL: string, metadataURL: string)

  datatype FileKind = Replay | Metadata

  /** What a download link names: a cluster, a match, a salt and which of the two files. */
  datatype DownloadLink = DownloadLink(clusterId: nat, matchId: nat, salt: nat, kind: FileKind)

  function Extension(kind: FileKind): string {
    match kind
    case Replay => ReplayExtension
    case Metadata => MetadataExtension
  }

  function KindOf(extension: string): Option<FileKind> {
    if extension == ReplayExtension then Some(Replay)
    else if extension == MetadataExtension then Some(Metadata)
    else None
  }

  /** Reads a download link back into its fields; `None` when `url` is not of that shape. */
  function ParseDownloadURL(url: string): Option<DownloadLink> {
    if Scheme <= url then ParseFromCluster(url[|Scheme|..]) else None
  }

  function ParseFromCluster(s: string): Option<DownloadLink> {
    var (cluster, rest) := SpanDigits(s);
    if !Canonical(cluster) || !(HostPath() <= rest) then None
    else ParseFromMatch(Value(cluster), rest[|HostPath()|..])
  }

  function ParseFromMatch(clusterId: nat, s: string): Option<DownloadLink> {
    var (matchId, rest) := SpanDigits(s);
    if !Canonical(matchId) || !("_" <= rest) then None
    else ParseFromSalt(clusterId, Value(matchId), rest[1..])
  }

  function ParseFromSalt(clusterId: nat, matchId: nat, s: string): Option<DownloadLink> {
    var (salt, extension) := SpanDigits(s);
    if !Canonical(salt) then None
    else
      match KindOf(extension)
      case None => None
      case Some(kind) => Some(DownloadLink(clusterId, matchId, Value(salt), kind))
  }

  lemma KindOfExtension(kind: FileKind)
    ensures KindOf(Extension(kind)) == Some(kind)
  {
    if kind == Metadata {
      assert MetadataExtension[1] != ReplayExtension[1];
    }
  }

  lemma ParseFromSaltShow(clusterId: nat, matchId: nat, salt: nat, kind: FileKind)
    ensures ParseFromSalt(clusterId, matchId, Show(salt) + Extension(kind)) == Some(DownloadLink(clusterId, matchId, salt, kind))
  {
    assert Extension(kind)[0] == '.';
    SpanShow(salt, Extension(kind));
    ValueShow(salt);
    KindOfExtension(kind);
  }

  lemma ParseFromMatchShow(clusterId: nat, matchId: nat, afterMatch: string)
    ensures ParseFromMatch(clusterId, Show(matchId) + "_" + afterMatch) == ParseFromSalt(clusterId, matchId, afterMatch)
  {
    var rest := "_" + afterMatch;
    assert Show(matchId) + "_" + afterMatch == Show(matchId) + rest;
    SpanShow(matchId, rest);
    ValueShow(matchId);
    assert rest[1..] == afterMatch;
  }

  lemma ParseFromClusterShow(clusterId: nat, afterHost: string)
    ensures ParseFromCluster(Show(clusterId) + HostPath() + afterHost) == ParseFromMatch(clusterId, afterHost)
  {
    var host := HostPath();
    var rest := host + afterHost;
    assert Show(clusterId) + host + afterHost == Show(clusterId) + rest;
    assert rest[0] == host[0] == '.';
    SpanShow(clusterId, rest);
    ValueShow(clusterId);
    assert rest[|host|..] == afterHost;
  }

  /** Every link of the shape above, for any fields, parses back to exactly those fields. */
  lemma DownloadURLRoundTrip(clusterId: nat, matchId: nat, salt: nat, kind: FileKind)
    ensures ParseDownloadURL(DownloadURL(clusterId, matchId, salt, Extension(kind))) == Some(DownloadLink(clusterId, matchId, salt, kind))
  {
    var afterMatch := Show(salt) + Extension(kind);
    var afterHost := Show(matchId) + "_" + afterMatch;
    var afterScheme := Show(clusterId) + HostPath() + afterHost;
    var url := DownloadURL(clusterId, matchId, salt, Extension(kind));
    assert url == Scheme + afterScheme;
    assert url[|Scheme|..] == afterScheme;
    ParseFromClusterShow(clusterId, afterHost);
    ParseFromMatchShow(clusterId, matchId, afterMatch);
    ParseFromSaltShow(clusterId, matchId, salt, kind);
  }

  lemma KindOfInverse(extension: string, kind: FileKind)
    requires KindOf(extension) == Some(kind)
    ensures extension == Extension(kind)
  {
  }

  lemma ParseFromSaltInverse(clusterId: nat, matchId: nat, s: string, link: DownloadLink)
    requires ParseFromSalt(clusterId, matchId, s) == Some(link)
    ensures link.clusterId == clusterId && link.matchId == matchId
    ensures s == Show(link.salt) + Extension(link.kind)
  {
    var (salt, extension) := SpanDigits(s);
    ShowValue(salt);
    KindOfInverse(extension, link.kind);
  }

  lemma ParseFromMatchInverse(clusterId: nat, s: string, link: DownloadLink)
    requires ParseFromMatch(clusterId, s) == Some(link)
    ensures link.clusterId == clusterId
    ensures s == FileName(link.matchId, link.salt, Extension(link.kind))
  {
    var (matchId, rest) := SpanDigits(s);
    ShowValue(matchId);
    assert rest == "_" + rest[1..];
    ParseFromSaltInverse(clusterId, Value(matchId), rest[1..], link);
  }

  lemma ParseFromClusterInverse(s: string, link: DownloadLink)
    requires ParseFromCluster(s) == Some(link)
    ensures s == Show(link.clusterId) + HostPath() + FileName(link.matchId, link.salt, Extension(link.kind))
  {
    var (cluster, rest) := SpanDigits(s);
    ShowValue(cluster);
    var host := HostPath();
    var file := rest[|host|..];
    assert rest == host + file;
    ParseFromMatchInverse(Value(cluster), file, link);
    assert s == cluster + (host + file);
  }

  /**
   * The parser is an exact inverse: a string it accepts is the link built from the fields
   * it reads, so no other spelling (a zero-padded number, say) names the same file.
   */
  lemma ParseDownloadURLInverse(url: string, link: DownloadLink)
    requires ParseDownloadURL(url) == Some(link)
    ensures url == DownloadURL(link.clusterId, link.matchId, link.salt, Extension(link.kind))
  {
    var tail := url[|Scheme|..];
    assert url == Scheme + tail;
    ParseFromClusterInverse(tail, link);
    var scheme, cluster, host, file := Scheme, Show(link.clusterId), HostPath(), FileName(link.matchId, link.salt, Extension(link.kind));
    ConcatRegroup3(scheme, cluster, host, file);
  }

  /** The replay link names the cluster, the match and the replay salt, as a replay file. */
  lemma ReplayURLNamesItsFields(clusterId: uint32, matchId: uint32, replaySalt: uint32)
    ensures ParseDownloadURL(ReplayURL(clusterId, matchId, replaySalt)) == Some(DownloadLink(clusterId, matchId, replaySalt, Replay))
  {
    DownloadURLRoundTrip(clusterId, matchId, replaySalt, Replay);
  }

  /** The metadata link names the cluster, the match and the metadata salt, as a metadata file. */
  lemma MetadataURLNamesItsFields(clusterId: uint32, matchId: uint32, metadataSalt: uint32)
    ensures ParseDownloadURL(MetadataURL(clusterId, matchId, metadataSalt)) == Some(DownloadLink(clusterId, matchId, metadataSalt, Metadata))
  {
    DownloadURLRoundTrip(clusterId, matchId, metadataSalt, Metadata);
  }

  /**
   * The metadata link is the replay link with the metadata salt and ".meta.bz2" in place of
   * the replay salt and ".dem.bz2": both share everything up to and including the "_".
   */
  lemma LinksShareStem(clusterId: uint32, matchId: uint32, replaySalt: uint32, metadataSalt: uint32)
    ensures var stem := Scheme + Show(clusterId) + HostPath() + Show(matchId) + "_";
            && ReplayURL(clusterId, matchId, replaySalt) == stem + Show(replaySalt) + ReplayExtension
            && MetadataURL(clusterId, matchId, metadataSalt) == stem + Show(metadataSalt) + MetadataExtension
  {
    DownloadURLSpelled(clusterId, matchId, replaySalt, ReplayExtension);
    DownloadURLSpelled(clusterId, matchId, metadataSalt, MetadataExtension);
  }

  /** `DownloadURL` written out as one interpolation, as the source writes each link. */
  lemma DownloadURLSpelled(clusterId: nat, matchId: nat, salt: nat, extension: string)
    ensures DownloadURL(clusterId, matchId, salt, extension)
         == Scheme + Show(clusterId) + HostPath() + Show(matchId) + "_" + Show(salt) + extension
  {
    var prefix, underscore := Scheme + Show(clusterId) + HostPath(), "_";
    ConcatRegroup(prefix, Show(matchId), underscore, Show(salt), extension);
  }

  lemma ConcatRegroup3(p: string, a: string, b: string, c: string)
    ensures p + (a + b + c) == p + a + b + c
  {
  }

  lemma ConcatRegroup(p: string, a: string, b: string, c: string, d: string)
    ensures p + (a + b + c + d) == p + a + b + c + d
  {
  }

  /** A replay link is never a metadata link, whatever the salts. */
  lemma ReplayNeverMetadata(clusterId: uint32, matchId: uint32, replaySalt: uint32, metadataSalt: uint32)
    ensures ReplayURL(clusterId, matchId, replaySalt) != MetadataURL(clusterId, matchId, metadataSalt)
  {
    ReplayURLNamesItsFields(clusterId, matchId, replaySalt);
    MetadataURLNamesItsFields(clusterId, matchId, metadataSalt);
  }

  /** Replay links of different matches, clusters or salts are different links. */
  lemma ReplayURLInjective(c1: uint32, m1: uint32, s1: uint32, c2: uint32, m2: uint32, s2: uint32)
    requires ReplayURL(c1, m1, s1) == ReplayURL(c2, m2, s2)
    ensures c1 == c2 && m1 == m2 && s1 == s2
  {
    ReplayURLNamesItsFields(c1, m1, s1);
    ReplayURLNamesItsFields(c2, m2, s2);
  }

  /** The application segment of every link is the literal Deadlock app id. */
  lemma HostPathIsDeadlock()
    ensures HostPath() == ".valve.net/1422450/"
  {
    assert Show(1422450) == "1422450" by {
      assert Show(1) == "1";
      assert Show(14) == "14";
      assert Show(142) == "142";
      assert Show(1422) == "1422";
      assert Show(14224) == "14224";
      assert Show(142245) == "142245";
    }
  }

  /**
   * `GetMatchMetaData` after the request: a null reply gives null; otherwise the reply is
   * kept and the two links are built from its cluster id and salts and the requested match id.
   */
  function MatchMetaDataOf(matchId: uint32, reply: Option<MatchMetaDataResponse>): (r: Option<MatchMetaData>)
    ensures r.None? <==> reply.None?
    ensures r.Some? ==>
      && r.value.data == reply.value
      && ParseDownloadURL(r.value.replayURL) == Some(DownloadLink(reply.value.clusterId, matchId, reply.value.replaySalt, Replay))
      && ParseDownloadURL(r.value.metadataURL) == Some(DownloadLink(reply.value.clusterId, matchId, reply.value.metadataSalt, Metadata))
  {
    match reply
    case None => None
    case Some(resp) =>
      ReplayURLNamesItsFields(resp.clusterId, matchId, resp.replaySalt);
      MetadataURLNamesItsFields(resp.clusterId, matchId, resp.metadataSalt);
      Some(MatchMetaData(resp,
        ReplayURL(resp.clusterId, matchId, resp.replaySalt),
        MetadataURL(resp.clusterId, matchId, resp.metadataSalt)))
  }

  lemma ReplayExampleSpelled()
    ensures "http://replay" + "7" + ".valve.net/1422450/" + "42" + "_" + "99" + ".dem.bz2" == "http://replay7.valve.net/1422450/42_99.dem.bz2"
  {
  }

  lemma MetadataExampleSpelled()
    ensures "http://replay" + "7" + ".valve.net/1422450/" + "42" + "_" + "100" + ".meta.bz2" == "http://replay7.valve.net/1422450/42_100.meta.bz2"
  {
  }

  lemma ReplayURLExample()
    ensures ReplayURL(7, 42, 99) == "http://replay7.valve.net/1422450/42_99.dem.bz2"
  {
    calc {
      ReplayURL(7, 42, 99);
      Scheme + Show(7) + HostPath() + Show(42) + "_" + Show(99) + ReplayExtension;
      { HostPathIsDeadlock(); assert Show(42) == "42"; assert Show(99) == "99"; }
      "http://replay" + "7" + ".valve.net/1422450/" + "42" + "_" + "99" + ".dem.bz2";
      { ReplayExampleSpelled(); }
      "http://replay7.valve.net/1422450/42_99.dem.bz2";
    }
  }

  lemma MetadataURLExample()
    ensures MetadataURL(7, 42, 100) == "http://replay7.valve.net/1422450/42_100.meta.bz2"
  {
    calc {
      MetadataURL(7, 42, 100);
      Scheme + Show(7) + HostPath() + Show(42) + "_" + Show(100) + MetadataExtension;
      { HostPathIsDeadlock(); assert Show(42) == "42"; assert Show(100) == "100" by { assert Show(10) == "10"; } }
      "http://replay" + "7" + ".valve.net/1422450/" + "42" + "_" + "100" + ".meta.bz2";
      { MetadataExampleSpelled(); }
      "http://replay7.valve.net/1422450/42_100.meta.bz2";
    }
  }

  /** Match 42 on cluster 7 with salts 99 and 100. */
  lemma MatchFortyTwoLinks()
    ensures var md := MatchMetaDataOf(42, Some(MatchMetaDataResponse(7, 99, 100)));
            && md.Some?
            && md.value.replayURL == "http://replay7.valve.net/1422450/42_99.dem.bz2"
            && md.value.metadataURL == "http://replay7.valve.net/1422450/42_100.meta.bz2"
  {
    ReplayURLExample();
    MetadataURLExample();
  }
}
