/**
 * The request helpers of common/init_helpers.py: the client address, user agent and origin read
 * from a request's `META` headers, and the two checks that decide whether a request is internal.
 * `ipaddress.ip_address` followed by `str` is the `parse` parameter (None where it raises
 * `ValueError`), and `urlparse(origin).netloc` is the `host` parameter.
 */
module InitHelpers {
  import opened Wrappers
  import opened Strings

  datatype User = User(isStaff: bool)

  /** A request: its `META` headers, and its `user` when it has one that is truthy. */
  datatype Request = Request(meta: map<string, string>, user: Option<User>)

  const ForwardedFor: string := "HTTP_X_FORWARDED_FOR"
  const RemoteAddr: string := "REMOTE_ADDR"
  const UserAgentHeader: string := "HTTP_USER_AGENT"
  const OriginHeader: string := "HTTP_ORIGIN"

  /** `request.META.get(name, default)`. */
  function Get(req: Request, name: string, default: string): string {
    if name in req.meta then req.meta[name] else default
  }

  /**
   * The address `_get_ip_address` starts from: a non-empty forwarded-for header contributes only
   * its first comma-separated segment; otherwise `REMOTE_ADDR` is taken, or "" without one.
   */
  function RawAddress(req: Request): (r: string)
    ensures ForwardedFor in req.meta && req.meta[ForwardedFor] != [] ==>
      var fwd := req.meta[ForwardedFor];
      r <= fwd && ',' !in r && (r == fwd || fwd[|r|] == ',')
    ensures !(ForwardedFor in req.meta && req.meta[ForwardedFor] != []) ==>
      r == (if RemoteAddr in req.meta then req.meta[RemoteAddr] else "")
  {
    var fwd := Get(req, ForwardedFor, "");
    if fwd != [] then Before(fwd, ',') else Get(req, RemoteAddr, "")
  }

  /**
   * The two readings `_get_ip_address` tries, in order: a bracketed IPv6 address with a port (the
   * leading `[`s dropped, cut before the first `]`), and an address with a port (cut before the
   * first `:`).
   */
  function Candidates(raw: string): (c: seq<string>)
    ensures |c| == 2
    ensures exists k ::
      && 0 <= k <= |raw| && (forall j :: 0 <= j < k ==> raw[j] == '[')
      && (c[0] == [] || c[0][0] != '[')
      && c[0] <= raw[k..] && ']' !in c[0] && (c[0] == raw[k..] || raw[k + |c[0]|] == ']')
    ensures c[1] <= raw && ':' !in c[1] && (c[1] == raw || raw[|c[1]|] == ':')
  {
    var stripped := LStrip(raw, '[');
    assert raw[|raw| - |stripped|..] == stripped;
    [Before(stripped, ']'), Before(raw, ':')]
  }

  /** The normal form of the first candidate `parse` accepts, or None when it accepts none. */
  function FirstValid(cands: seq<string>, parse: string -> Option<string>): (r: Option<string>)
    ensures r.None? <==> forall i :: 0 <= i < |cands| ==> parse(cands[i]).None?
    ensures r.Some? ==> exists i ::
      && 0 <= i < |cands| && parse(cands[i]) == r
      && forall j :: 0 <= j < i ==> parse(cands[j]).None?
  {
    if cands == [] then None
    else
      match parse(cands[0])
      case Some(addr) => Some(addr)
      case None =>
        var r := FirstValid(cands[1..], parse);
        assert forall i :: 1 <= i < |cands| ==> cands[1..][i - 1] == cands[i];
        r
  }

  /**
   * The address `_get_ip_address` returns for the raw address: the first candidate that parses, in
   * its normal form, or the raw address itself when neither does.
   */
  function Resolve(raw: string, parse: string -> Option<string>): (r: string)
    ensures var cands := Candidates(raw);
      && (parse(cands[0]).Some? ==> r == parse(cands[0]).value)
      && (parse(cands[0]).None? && parse(cands[1]).Some? ==> r == parse(cands[1]).value)
      && (parse(cands[0]).None? && parse(cands[1]).None? ==> r == raw)
  {
    var cands := Candidates(raw);
    FirstOfTwo(cands, parse);
    match FirstValid(cands, parse)
    case Some(addr) => addr
    case None => raw
  }

  /** Over two candidates the first one wins when it parses, and the second is tried only then. */
  lemma FirstOfTwo(cands: seq<string>, parse: string -> Option<string>)
    requires |cands| == 2
    ensures FirstValid(cands, parse) == if parse(cands[0]).Some? then parse(cands[0]) else parse(cands[1])
  {
    assert cands[1..][1..] == [];
  }

  /** `_get_ip_address`: it returns for every request. */
  function GetIpAddress(req: Request, parse: string -> Option<string>): string {
    Resolve(RawAddress(req), parse)
  }

  /** An address without `:`, `[` or `]` is its own candidate twice. */
  lemma PlainAddressCandidates(raw: string)
    requires ':' !in raw && '[' !in raw && ']' !in raw
    ensures Candidates(raw) == [raw, raw]
  {
    if raw != [] {
      assert raw[0] in raw;
    }
  }

  /** `_get_user_agent`: the header as sent, or "NA". */
  function UserAgent(req: Request): (r: string)
    ensures UserAgentHeader in req.meta ==> r == req.meta[UserAgentHeader]
    ensures UserAgentHeader !in req.meta ==> r == "NA"
  {
    Get(req, UserAgentHeader, "NA")
  }

  /** `get_request_origin`: the origin header, or None. */
  function RequestOrigin(req: Request): (r: Option<string>)
    ensures r.Some? <==> OriginHeader in req.meta
    ensures r.Some? ==> r.value == req.meta[OriginHeader]
  {
    if OriginHeader in req.meta then Some(req.meta[OriginHeader]) else None
  }

  /** `hasattr(request, "user") and request.user and request.user.is_staff`. */
  predicate IsStaffRequest(req: Request) {
    req.user.Some? && req.user.value.isStaff
  }

  /**
   * `is_request_from_private_origin`: a staff user always passes; otherwise the host of the origin
   * must be one of `private_origins`. Without an origin `urlparse(None).netloc` is `b''`, which is
   * never in a list of strings.
   */
  function IsRequestFromPrivateOrigin(req: Request, privateOrigins: seq<string>, host: string -> string): (r: bool)
    ensures IsStaffRequest(req) ==> r
    ensures !IsStaffRequest(req) ==>
      (r <==> RequestOrigin(req).Some? && host(RequestOrigin(req).value) in privateOrigins)
  {
    if IsStaffRequest(req) then true
    else
      match RequestOrigin(req)
      case None => false
      case Some(origin) => host(origin) in privateOrigins
  }

  /** `is_internal_ip`: a staff user always passes; otherwise the client address must be listed. */
  function IsInternalIp(req: Request, internalIps: seq<string>, parse: string -> Option<string>): (r: bool)
    ensures IsStaffRequest(req) ==> r
    ensures !IsStaffRequest(req) ==> (r <==> GetIpAddress(req, parse) in internalIps)
  {
    IsStaffRequest(req) || GetIpAddress(req, parse) in internalIps
  }

  /** For a staff user neither check looks at the headers: two requests differing only there agree. */
  lemma StaffIgnoresHeaders(req: Request, meta: map<string, string>, privateOrigins: seq<string>,
                            internalIps: seq<string>, host: string -> string, parse: string -> Option<string>)
    requires IsStaffRequest(req)
    ensures var other := req.(meta := meta);
      && IsRequestFromPrivateOrigin(other, privateOrigins, host) == IsRequestFromPrivateOrigin(req, privateOrigins, host)
      && IsInternalIp(other, internalIps, parse) == IsInternalIp(req, internalIps, parse)
  {
  }

  /** A non-empty forwarded-for header decides the address whatever `REMOTE_ADDR` says. */
  lemma ForwardedForWins(req: Request, remote: string)
    requires ForwardedFor in req.meta && req.meta[ForwardedFor] != []
    ensures RawAddress(req.(meta := req.meta[RemoteAddr := remote])) == RawAddress(req)
  {
    var other := req.(meta := req.meta[RemoteAddr := remote]);
    assert ForwardedFor != RemoteAddr;
    assert other.meta[ForwardedFor] == req.meta[ForwardedFor];
  }
}
