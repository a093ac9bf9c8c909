/** The "latest release" lookup shared by the babashka, clj-kondo, cljfmt, cljstyle and
    zprint modules (`getLatestBabashka`, `getLatestCljKondo`, ...). The HTTP request is
    not modelled: its answer is passed in as a `Reply`. */
module Release {
  import opened Common

  /** What `client.getJson` produced: a JSON body whose `tag_name` may be absent, or a
      rejection with the transport error's message. */
  datatype Reply = Reply(tagName: Option<string>) | Unreachable(message: string)

  /** The release API address of a GitHub repository ("owner/name"). */
  function LatestUrl(repository: string): string
  {
    "https://api.github.com/repos/" + repository + "/releases/latest"
  }

  /** `tag.replace(/^v/, '')`: one leading "v" is removed, nothing else changes. */
  function StripV(tag: string): (r: string)
    ensures |tag| > 0 && tag[0] == 'v' ==> tag == "v" + r
    ensures !(|tag| > 0 && tag[0] == 'v') ==> r == tag
  {
    if |tag| > 0 && tag[0] == 'v' then tag[1..] else tag
  }

  function CannotObtain(tool: string): string
  {
    "Can't obtain latest " + tool + " version"
  }

  /** The version a `getLatest...` function returns for a reply: the tag, with one
      leading "v" removed when `stripV` holds, if that is a non-empty string; otherwise
      the error "Can't obtain latest <tool> version". A transport failure rejects with
      its own message. */
  function Latest(reply: Reply, stripV: bool, tool: string): (r: Result<string>)
    ensures reply.Unreachable? ==> r == Err(reply.message)
    ensures reply.Reply? && r.Err? ==> r.error == CannotObtain(tool)
    ensures r.Ok? ==> r.value != ""
    ensures r.Ok? ==> reply.Reply? && reply.tagName.Some? &&
                      (reply.tagName.value == r.value ||
                       (stripV && reply.tagName.value == "v" + r.value))
  {
    match reply
    case Unreachable(message) => Err(message)
    case Reply(tagName) =>
      if tagName.None? then Err(CannotObtain(tool))
      else
        var result := if stripV then StripV(tagName.value) else tagName.value;
        if result != "" then Ok(result) else Err(CannotObtain(tool))
  }

  /** A "v"-prefixed tag gives back the version after the "v" when stripping, and the
      whole tag otherwise; a tag without a leading "v" is returned as it is. */
  lemma {:induction false} LatestRoundTrip(version: string, tool: string)
    requires version != ""
    ensures Latest(Reply(Some("v" + version)), true, tool) == Ok(version)
    ensures Latest(Reply(Some("v" + version)), false, tool) == Ok("v" + version)
    ensures version[0] != 'v' ==> Latest(Reply(Some(version)), true, tool) == Ok(version)
  {
    assert ("v" + version)[1..] == version;
  }

  /** The lookup fails exactly when the tag is missing, empty, or (when stripping) the
      lone letter "v". */
  lemma LatestFailsIff(tag: Option<string>, stripV: bool, tool: string)
    ensures Latest(Reply(tag), stripV, tool).Err? <==>
              tag.None? || tag.value == "" || (stripV && tag.value == "v")
  {
  }

  /** The version a `setup` works with: "latest" is looked up, anything else is used as
      given. */
  function Resolve(version: string, reply: Reply, stripV: bool, tool: string): Result<string>
  {
    if version == "latest" then Latest(reply, stripV, tool) else Ok(version)
  }
}
