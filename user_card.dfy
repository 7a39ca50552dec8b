/** The profile card (src/components/UserCard.tsx): what it renders for the profile in the store. The card
    is a function of the profile; the number and date formatting are not part of this model. */
module UserCard {
  import opened Common
  import opened Text
  import GithubApi

  /** The heading: `profile.name || profile.login`. */
  function DisplayName(p: GithubApi.Profile): (r: string)
    ensures Truthy(p.name) ==> r == p.name.value
    ensures !Truthy(p.name) ==> r == p.login
  {
    if Truthy(p.name) then p.name.value else p.login
  }

  /** The second, smaller login line: `profile.name && profile.name !== profile.login`. */
  predicate ShowsSecondaryLogin(p: GithubApi.Profile)
  {
    Truthy(p.name) && p.name.value != p.login
  }

  /** The login is repeated under the heading exactly when the heading is not already the login. */
  lemma SecondaryLoginIffHeadingDiffers(p: GithubApi.Profile)
    ensures ShowsSecondaryLogin(p) <==> DisplayName(p) != p.login
  {
  }

  const HttpPrefix: string := "http"
  const HttpsScheme: string := "https://"

  /** The blog link's href: the blog as written if it starts with "http", otherwise with "https://" put in
      front. */
  function BlogHref(blog: string): (r: string)
    ensures StartsWith(r, HttpPrefix)
    ensures StartsWith(blog, HttpPrefix) ==> r == blog
    ensures !StartsWith(blog, HttpPrefix) ==> r == HttpsScheme + blog
  {
    if StartsWith(blog, HttpPrefix) then blog
    else
      assert (HttpsScheme + blog)[..|HttpPrefix|] == HttpPrefix;
      HttpsScheme + blog
  }

  /** Normalising an href again changes nothing. */
  lemma BlogHrefIdempotent(blog: string)
    ensures BlogHref(BlogHref(blog)) == BlogHref(blog)
  {
  }

  /** The original text is kept at the end of the href: the link only ever adds a scheme in front. */
  lemma BlogHrefKeepsBlog(blog: string)
    ensures |BlogHref(blog)| >= |blog|
    ensures BlogHref(blog)[|BlogHref(blog)| - |blog|..] == blog
  {
    if !StartsWith(blog, HttpPrefix) {
      assert (HttpsScheme + blog)[|HttpsScheme|..] == blog;
    }
  }

  /** The check is on the four letters only: a host that happens to start with them is taken for a URL. */
  lemma BlogHrefTakesHttpHostAsUrl()
    ensures BlogHref("httpbin.org") == "httpbin.org"
    ensures BlogHref("example.org") == "https://example.org"
  {
    assert StartsWith("httpbin.org", HttpPrefix) by {
      assert "httpbin.org"[..4] == "http";
    }
    assert !StartsWith("example.org", HttpPrefix) by {
      assert "example.org"[0] == 'e';
    }
  }

  /** The blog row: its href and its text. */
  datatype BlogLink = BlogLink(href: string, text: string)

  /** What the card shows. Optional rows are `None` when they are not rendered. */
  datatype CardView = CardView(
    avatarUrl: string,
    heading: string,
    handle: string,
    secondaryLogin: Option<string>,
    bio: Option<string>,
    location: Option<string>,
    company: Option<string>,
    blog: Option<BlogLink>,
    profileUrl: string)

  /** A row shown only when its field is truthy. */
  function Row(field: Option<string>): (r: Option<string>)
    ensures r.Some? <==> Truthy(field)
    ensures r.Some? ==> r == field
  {
    if Truthy(field) then field else None
  }

  /** The card for the profile in the store; nothing at all without one. */
  function RenderCard(profile: Option<GithubApi.Profile>): (r: Option<CardView>)
    ensures r.None? <==> profile.None?
    ensures r.Some? ==> r.value.heading == DisplayName(profile.value)
    ensures r.Some? ==> r.value.handle == "@" + profile.value.login
    ensures r.Some? ==> (r.value.secondaryLogin.Some? <==> r.value.heading != profile.value.login)
    ensures r.Some? && r.value.secondaryLogin.Some? ==> r.value.secondaryLogin.value == profile.value.login
    ensures r.Some? ==> (r.value.bio.Some? <==> Truthy(profile.value.bio))
    ensures r.Some? ==> (r.value.location.Some? <==> Truthy(profile.value.location))
    ensures r.Some? ==> (r.value.company.Some? <==> Truthy(profile.value.company))
    ensures r.Some? ==>
      && r.value.bio == Row(profile.value.bio)
      && r.value.location == Row(profile.value.location)
      && r.value.company == Row(profile.value.company)
    ensures r.Some? ==> (r.value.blog.Some? <==> Truthy(profile.value.blog))
    ensures r.Some? && r.value.blog.Some? ==>
      && r.value.blog.value.text == profile.value.blog.value
      && r.value.blog.value.href == BlogHref(profile.value.blog.value)
      && StartsWith(r.value.blog.value.href, HttpPrefix)
    ensures r.Some? ==> r.value.profileUrl == profile.value.htmlUrl && r.value.avatarUrl == profile.value.avatarUrl
  {
    if profile.None? then None
    else
      var p := profile.value;
      SecondaryLoginIffHeadingDiffers(p);
      Some(CardView(
        p.avatarUrl,
        DisplayName(p),
        "@" + p.login,
        if ShowsSecondaryLogin(p) then Some(p.login) else None,
        Row(p.bio),
        Row(p.location),
        Row(p.company),
        if Truthy(p.blog) then Some(BlogLink(BlogHref(p.blog.value), p.blog.value)) else None,
        p.htmlUrl))
  }
}
