/**
 * The profile header (components/profile/ProfileHeader.tsx): the verified
 * mark next to the name and the website line with its scheme removed.
 */
module ProfileHeader {
  import opened Optional
  import opened Strings

  const Https: string := "https://"
  const Http: string := "http://"

  /** The part of the user's links the header uses. */
  datatype UserLinks = UserLinks(website: Option<string>)

  /** The part of the user record the header shows. */
  datatype User = User(name: string, verified: bool, occupation: string, bio: string, links: Option<UserLinks>)

  /** `url.replace(/^https?:\/\//, '')`: one leading `http://` or `https://` removed. */
  function StripScheme(url: string): (shown: string)
    ensures StartsWith(url, Https) ==> url == Https + shown
    ensures StartsWith(url, Http) ==> url == Http + shown
    ensures !StartsWith(url, Https) && !StartsWith(url, Http) ==> shown == url
  {
    if StartsWith(url, Https) then
      assert url == Https + url[8..];
      assert url[..7][4] == 's';
      url[8..]
    else if StartsWith(url, Http) then
      assert url == Http + url[7..];
      url[7..]
    else url
  }

  /** Only the leading scheme goes, whatever follows it. */
  lemma StripSchemeOnce(rest: string)
    ensures StripScheme(Https + rest) == rest
    ensures StripScheme(Http + rest) == rest
  {
    assert (Https + rest)[..8] == Https;
    assert (Http + rest)[..7] == Http;
    assert !StartsWith(Http + rest, Https) by {
      if |Http + rest| >= 8 {
        assert (Http + rest)[..8][4] == ':';
      }
    }
  }

  /** An address with two schemes keeps its second one. */
  lemma StripSchemeKeepsInnerScheme(host: string)
    ensures StripScheme(Https + Http + host) == Http + host
  {
    StripSchemeOnce(Http + host);
    assert Https + Http + host == Https + (Http + host);
  }

  /** The website text, when the link row is drawn at all. */
  function WebsiteText(user: User): (text: Option<string>)
    ensures text.Some? <==> user.links.Some? && user.links.value.website.Some? && user.links.value.website.value != ""
    ensures text.Some? ==> text.value == StripScheme(user.links.value.website.value)
  {
    if user.links.Some? && user.links.value.website.Some? && user.links.value.website.value != "" then
      Some(StripScheme(user.links.value.website.value))
    else None
  }

  /** What the name block of the header shows. */
  datatype NameBlock = NameBlock(name: string, verifiedMark: bool, occupation: string, bio: string, website: Option<string>)

  function RenderNameBlock(user: User): (block: NameBlock)
    ensures block.verifiedMark <==> user.verified
    ensures block.name == user.name && block.occupation == user.occupation && block.bio == user.bio
    ensures block.website == WebsiteText(user)
  {
    NameBlock(user.name, user.verified, user.occupation, user.bio, WebsiteText(user))
  }
}
