/**
 * What both `parseUserInfo` helpers (backend/utils/helpers.js and
 * backend/utils/backup.helpers.js) share, line for line: the client address
 * taken from the request, its IPv6-mapped prefix removed and trimmed, the
 * loopback test with its substitute lookup key, and the defaults put in
 * place of missing geolocation fields.
 */
module RequestInfo {
  import opened Wrappers
  import opened Text

  /** The parts of an incoming request the helpers read; a missing header or address is `None`. */
  datatype Request = Request(
    forwardedFor: Option<string>,      // headers['x-forwarded-for']
    socketAddress: Option<string>,     // socket?.remoteAddress
    connectionAddress: Option<string>, // connection?.remoteAddress
    userAgent: Option<string>)         // headers['user-agent']

  /** What a call into a library did: returned a value, or threw. */
  datatype Call<T> = Returned(value: T) | Threw

  /** The record the geolocation database returns for an address; any field may be missing. */
  datatype GeoRecord = GeoRecord(
    country: Option<string>, city: Option<string>, region: Option<string>,
    timezone: Option<string>, ll: Option<seq<real>>)

  /** The geolocation part of the descriptor, every field filled in. */
  datatype GeoFields = GeoFields(country: string, city: string, region: string, timezone: string, ll: seq<real>)

  /** The public address used when the request carries none, and as the lookup key for loopback. */
  const PublicFallback: string := "8.8.8.8"
  const MappedPrefix: string := "::ffff:"

  /** A string property is truthy when it is present and not empty. */
  predicate Truthy(v: Option<string>) {
    v.Some? && v.value != ""
  }

  /** `v || default` for a string property. */
  function Or(v: Option<string>, default: string): string {
    if Truthy(v) then v.value else default
  }

  /** First truthy candidate of `xff?.split(',')[0] || socket || connection || '8.8.8.8'`. */
  function RawIp(req: Request): (r: string)
    ensures r != ""
    ensures req.forwardedFor.Some? && Split(req.forwardedFor.value, ',')[0] != "" ==>
      r == Split(req.forwardedFor.value, ',')[0]
    ensures (req.forwardedFor.None? || Split(req.forwardedFor.value, ',')[0] == "") ==>
      r == Or(req.socketAddress, Or(req.connectionAddress, PublicFallback))
  {
    var first := if req.forwardedFor.Some? then Split(req.forwardedFor.value, ',')[0] else "";
    if first != "" then first
    else Or(req.socketAddress, Or(req.connectionAddress, PublicFallback))
  }

  /** `ip.replace('::ffff:', '').trim()`. */
  function NormalizeIp(raw: string): (r: string)
    ensures Trimmed(r)
    ensures !Contains(raw, MappedPrefix) ==> r == Trim(raw)
  {
    Trim(ReplaceFirst(raw, MappedPrefix, ""))
  }

  /** The normalised client address of a request. */
  function ClientIp(req: Request): string {
    NormalizeIp(RawIp(req))
  }

  predicate IsLocal(ip: string) {
    ip == "127.0.0.1" || ip == "::1"
  }

  /** The address handed to the geolocation database. */
  function LookupKey(ip: string): (r: string)
    ensures IsLocal(ip) ==> r == PublicFallback
    ensures !IsLocal(ip) ==> r == ip
    ensures r == PublicFallback <==> IsLocal(ip) || ip == PublicFallback
  {
    if IsLocal(ip) then PublicFallback else ip
  }

  /** `geo?.country || 'Unknown'`, … , `geo?.ll || [0, 0]`. */
  function GeoDefaults(geo: Option<GeoRecord>): (r: GeoFields)
    ensures r.country != "" && r.city != "" && r.region != "" && r.timezone != ""
    ensures geo.None? ==> r == GeoFields("Unknown", "Unknown", "Unknown", "UTC", [0.0, 0.0])
    ensures geo.Some? && Truthy(geo.value.country) ==> r.country == geo.value.country.value
    ensures geo.Some? && !Truthy(geo.value.country) ==> r.country == "Unknown"
    ensures geo.Some? && Truthy(geo.value.city) ==> r.city == geo.value.city.value
    ensures geo.Some? && !Truthy(geo.value.city) ==> r.city == "Unknown"
    ensures geo.Some? && Truthy(geo.value.region) ==> r.region == geo.value.region.value
    ensures geo.Some? && !Truthy(geo.value.region) ==> r.region == "Unknown"
    ensures geo.Some? && Truthy(geo.value.timezone) ==> r.timezone == geo.value.timezone.value
    ensures geo.Some? && !Truthy(geo.value.timezone) ==> r.timezone == "UTC"
    ensures geo.Some? && geo.value.ll.Some? ==> r.ll == geo.value.ll.value
    ensures (geo.None? || geo.value.ll.None?) ==> r.ll == [0.0, 0.0]
  {
    match geo
    case None => GeoFields("Unknown", "Unknown", "Unknown", "UTC", [0.0, 0.0])
    case Some(g) =>
      GeoFields(Or(g.country, "Unknown"), Or(g.city, "Unknown"), Or(g.region, "Unknown"),
                Or(g.timezone, "UTC"), if g.ll.Some? then g.ll.value else [0.0, 0.0])
  }

  /**
   * The mapped prefix at the front is removed before trimming: the address
   * is what follows it, trimmed.
   */
  lemma NormalizeMapped(rest: string)
    ensures NormalizeIp(MappedPrefix + rest) == Trim(rest)
  {
    var raw := MappedPrefix + rest;
    assert raw[..|MappedPrefix|] == MappedPrefix;
    assert IndexOf(raw, MappedPrefix, 0) == Some(0);
    assert raw[|MappedPrefix|..] == rest;
    assert ReplaceFirst(raw, MappedPrefix, "") == rest;
  }

  /**
   * White space around an address without the mapped prefix is dropped, and
   * nothing else is.
   */
  lemma NormalizePlain(a: string, ip: string, b: string)
    requires AllSpace(a) && AllSpace(b) && Trimmed(ip)
    requires !Contains(a + ip + b, MappedPrefix)
    ensures NormalizeIp(a + ip + b) == ip
  {
    TrimCore(a, ip, b);
  }

  /**
   * The address comes from the first comma-separated entry of the
   * forwarded-for header whenever that entry is not empty: it is the text
   * before the first comma, normalised.
   */
  lemma ForwardedForFirst(req: Request, entry: string, more: string)
    requires req.forwardedFor == Some(entry + more)
    requires entry != "" && ',' !in entry
    requires more == "" || more[0] == ','
    ensures ClientIp(req) == NormalizeIp(entry)
  {
    SplitFirst(entry + more, ',', entry, more);
  }

  lemma NormalizeMappedLoopback()
    ensures NormalizeIp("::ffff:127.0.0.1") == "127.0.0.1"
  {
    assert "::ffff:127.0.0.1" == MappedPrefix + "127.0.0.1";
    NormalizeMapped("127.0.0.1");
    assert !IsSpace('1');
    TrimOfTrimmed("127.0.0.1");
  }

  /** An IPv6-mapped loopback address counts as local, and the public address is looked up instead. */
  lemma MappedLoopbackIsLocal(req: Request)
    requires req.forwardedFor == Some("::ffff:127.0.0.1")
    ensures ClientIp(req) == "127.0.0.1"
    ensures IsLocal(ClientIp(req)) && LookupKey(ClientIp(req)) == PublicFallback
  {
    var raw := "::ffff:127.0.0.1";
    assert raw == raw + "" && ',' !in raw;
    ForwardedForFirst(req, raw, "");
    NormalizeMappedLoopback();
  }

  /** A request that names no address at all is attributed to the public fallback, which is not local. */
  lemma NoAddressFallsBack(req: Request)
    requires req.forwardedFor.None? && req.socketAddress.None? && req.connectionAddress.None?
    ensures ClientIp(req) == PublicFallback && !IsLocal(ClientIp(req))
  {
    assert PublicFallback[0] != MappedPrefix[0];
    assert !Contains(PublicFallback, MappedPrefix);
    TrimOfTrimmed(PublicFallback);
  }
}
