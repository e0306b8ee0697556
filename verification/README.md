# Web Links, modelled in Dafny

Web Links is a Spicetify extension that adds a "Web links" submenu to the
context menu of an artist, album or track. The submenu has one item per
entry of a small registry: "LastFm", "RYM" and "RYM search". Clicking an
item does three things:

1. it fetches the metadata of the selected resource;
2. it builds a replacement map from that metadata (`artist`, `album`,
   `track` or `type`);
3. it fills the `{name}` tokens of the link's URL template for that kind of
   resource, passing each value through the link's escape, and opens the
   result.

The model covers the whole of that computation. Nothing in it changes state,
so it is written as datatypes, recursive functions and lemmas:

- `wrappers.dfy`: `Option` and `Result`.
- `seq_facts.dfy`: two concatenation facts that the proofs cite.
- `template.dfy`, module `Template`: the global replace of `/{(\w+)}/g`. It
  is a left-to-right scan. A token whose name is an own key of the
  replacement map becomes the escaped value. Any other token becomes its own
  text, escaped as well.
- `uri_encoding.dfy`, module `UriEncoding`: encodeURIComponent as ECMA-262
  section 19.2.6.5 defines it. The unreserved set is copied as is. Every
  other character becomes its UTF-8 bytes, each written as `%XX`. A
  percent-decoder is included as its inverse.
- `rym_slug.dfy`, module `RymSlug`: the escape of the "RYM" link, four
  rewrites in a row:
  - every whitespace run becomes a hyphen;
  - apostrophes, commas and colons are dropped;
  - the first ampersand becomes "and";
  - letters are put in lower case.
- `web_links.dfy`, module `WebLinks`:
  - the resource kinds;
  - the fields of the fetched records;
  - the link record and the registry;
  - `getUrl`, with its errors;
  - the two menu predicates.

Two behaviours of the code are easy to misread. The model follows the code
in both:

- **An unmatched token is escaped, not left as written.** A token whose name
  is not in the map is handed to the escape as its own text. Under
  encodeURIComponent, `{album}` therefore comes out as `%7Balbum%7D`
  (`WebLinks.EncodedUnmatchedToken`).
- **A missing template fails after the fetch.** `getUrl` does not reject
  a kind whose template is missing before fetching. It reads the template,
  fetches, builds the map, and only then fails, when it calls `replace` on
  the missing template. So a fetch failure or a missing artist is reported
  ahead of a missing template (`WebLinks.GetUrl`).

## Model

| member | source | states |
|---|---|---|
| Template.WordRun | web-links.js:69 | the greedy `\w+` run: its length, all of it word characters, and the next character (if any) is not one |
| Template.TokenAt | web-links.js:69 | the token matched at the start of a text is a `{name}` prefix with a nonempty word-character name, and it is the only such prefix |
| Template.TokenAtUnique | web-links.js:69 | a `{w}` prefix makes the greedy run after `{` stop exactly at `}`, giving `w` |
| Template.Step | web-links.js:68-73 | each step of the scan consumes at least one character and no more than the rest of the text |
| Template.NameAt | web-links.js:69 | the name matched at the start of a text is a valid capture of `(\w+)` |
| Template.Placeholders | web-links.js:69 | every name the scan matches is a valid capture of `(\w+)` |
| Template.TokenAtConcat | web-links.js:69 | a token never runs into a suffix that starts with a non-word character other than `}` |
| Template.ScanStepConcat | web-links.js:68-73 | before such a suffix, the first step of the scan consumes and writes what it does on the text alone |
| Template.RenderConcat | web-links.js:68-73 | rendering splits at any such point: each part is rendered on its own |
| Template.PlaceholdersConcat | web-links.js:68-73 | the matched names split at the same points |
| Template.RenderLiteral | web-links.js:68-73 | text without `{` is copied unchanged, and no name is matched in it |
| Template.RenderLeadingToken | web-links.js:70-72 | a leading token becomes the escaped own value of its name, or the escaped token text when the name is not a key; scanning resumes right after the token |
| Template.RenderToken | web-links.js:70-72 | a token between any two texts becomes exactly the escaped substitution, and the texts on each side render independently |
| Template.RenderSlot | web-links.js:68-73 | a token after brace-free text: the text is copied and the token replaced |
| Template.RenderFinalSlot | web-links.js:68-73 | a template that ends with one token after brace-free text renders to the text plus the escaped substitution |
| Template.RenderOneSlot | web-links.js:68-73 | one token between brace-free texts renders to text, escaped substitution, text; its only name is the token's |
| Template.RenderTwoSlots | web-links.js:68-73 | the same for two tokens followed by brace-free text: names in order |
| Template.RenderThreeSlots | web-links.js:68-73 | the same for three tokens followed by brace-free text |
| Template.RenderTwoSlotsFinal | web-links.js:68-73 | the same for two tokens, the last ending the template |
| Template.RenderThreeSlotsFinal | web-links.js:68-73 | the same for three tokens, the last ending the template |
| Template.RenderTokenFree | web-links.js:68-73 | a template with no matched token renders to itself, whatever the map and the escape |
| Template.RenderIdentity | web-links.js:71-72 | with an empty map and the identity escape every token is put back as it was: rendering rewrites nothing but tokens |
| UriEncoding.Utf8 | web-links.js:80 | each character is encoded in one to four bytes |
| UriEncoding.Utf8RoundTrip | web-links.js:80 | decoding the UTF-8 bytes of a character gives back its code point, and only ASCII takes a single byte |
| UriEncoding.HexDigit | web-links.js:80 | a number below 16 is written as an upper-case hexadecimal digit |
| UriEncoding.HexValue | web-links.js:80 | reading a hexadecimal digit is the inverse of writing one |
| UriEncoding.PercentEncode | web-links.js:80 | each byte becomes three characters, each `%` or a hexadecimal digit |
| UriEncoding.EncodeURIComponent | web-links.js:80 | the output holds only unreserved characters and `%`, and is never shorter than the input |
| UriEncoding.UnescapeByte | web-links.js:80 | `%XX` decodes to the byte XX |
| UriEncoding.UnescapePercentEncode | web-links.js:80 | percent-decoding undoes percent-encoding of any byte string |
| UriEncoding.UnescapeEncode | web-links.js:80 | percent-decoding the output of encodeURIComponent gives the UTF-8 bytes of the input |
| UriEncoding.EncodeFixedPoint | web-links.js:96 | encodeURIComponent leaves a string unchanged if and only if all its characters are unreserved |
| UriEncoding.EncodeConcat | web-links.js:96 | encodeURIComponent works character by character: it distributes over concatenation |
| UriEncoding.EncodeReservedAscii | web-links.js:96 | a reserved ASCII character becomes `%` and its two hexadecimal digits |
| UriEncoding.EncodeBraces | web-links.js:96 | the braces of a token become `%7B` and `%7D` |
| RymSlug.SpaceRun | web-links.js:88 | the whitespace run at the start of a text stays within the text, and it is nonempty when the text starts with whitespace |
| RymSlug.Step | web-links.js:88 | each step of the whitespace rewrite consumes at least one character and no more than the rest |
| RymSlug.RemovePunctuation | web-links.js:88 | a character survives if and only if it was in the input and is not an apostrophe, comma or colon |
| RymSlug.RemovePunctuationCounts | web-links.js:88 | every other character survives exactly as often as it occurred |
| RymSlug.RemovePunctuationConcat | web-links.js:88 | punctuation is removed character by character |
| RymSlug.RemovePunctuationFree | web-links.js:88 | text without those characters is unchanged |
| RymSlug.ReplaceFirstAmpersand | web-links.js:88 | text without `&` is unchanged, and no character appears that was not in the input or in "and" |
| RymSlug.ReplaceFirstAmpersandAt | web-links.js:88 | only the first ampersand becomes "and"; later ones are copied |
| RymSlug.ToLowerCase | web-links.js:88 | same length, each character lowered, no upper-case ASCII letter left |
| RymSlug.Escape | web-links.js:87-89 | the slug holds no whitespace, no apostrophe, comma or colon, and no upper-case ASCII letter |
| RymSlug.SpaceRunConcat | web-links.js:88 | a whitespace run ends where the text ends, when the next text does not start with whitespace |
| RymSlug.CollapseStep | web-links.js:88 | the first step of the rewrite of a concatenation is the first step over its left part, when no run crosses the split |
| RymSlug.CollapseConcat | web-links.js:88 | the whitespace rewrite splits at any point that is not inside a run |
| RymSlug.SpaceRunAllSpace | web-links.js:88 | the run that is measured is all whitespace |
| RymSlug.SpaceRunAll | web-links.js:88 | a text made only of whitespace is one run |
| RymSlug.CollapseNoSpace | web-links.js:88 | no whitespace survives the rewrite |
| RymSlug.CollapseSpaceFree | web-links.js:88 | text without whitespace is unchanged |
| RymSlug.CollapseRun | web-links.js:88 | a maximal whitespace run becomes exactly one hyphen, and the text around it is rewritten independently |
| WebLinks.Replacements | web-links.js:30-66 | an unsupported kind fails with "unsupported type"; a failed fetch passes its error on; after a successful fetch an album or track fails (with the missing-artist error) exactly when its artist list is empty, and an artist always succeeds; on success the keys are exactly those of the kind and hold the first artist's name, the album name, the track name, the release type or the artist's name as read from the record |
| WebLinks.GetUrl | web-links.js:26-74 | error order: unsupported kind, then fetch error or missing artist, then missing template. It succeeds exactly when the map is built and the template exists, and the URL is then the template rendered with that map and the link's escape |
| WebLinks.Links | web-links.js:77-101 | three links, each with a template for every supported kind |
| WebLinks.SubmenuEnabled | web-links.js:130-142 | the submenu shows exactly when one URI is selected and it is an artist, album or track |
| WebLinks.ItemEnabled | web-links.js:110-122 | an item is enabled exactly when its link has a template for the kind of the selected URI |
| WebLinks.LastFmArtistTemplate | web-links.js:81 | the LastFm artist template renders to the last.fm music path followed by the escaped artist, and its only name is `artist` |
| WebLinks.LastFmAlbumTemplate | web-links.js:82 | artist, then album, as path segments; names `artist`, `album` |
| WebLinks.LastFmTrackTemplate | web-links.js:83 | artist, album, then track, as path segments; names `artist`, `album`, `track` |
| WebLinks.RymArtistTemplate | web-links.js:90 | the RYM artist page of the escaped artist; name `artist` |
| WebLinks.RymAlbumTemplate | web-links.js:91 | release type, artist, then album, with a closing slash; names `type`, `artist`, `album` |
| WebLinks.RymTrackTemplate | web-links.js:92 | a single by the artist, with a closing slash; names `artist`, `track` |
| WebLinks.RymSearchArtistTemplate | web-links.js:97 | the artist as the search term, searching artists; name `artist` |
| WebLinks.RymSearchAlbumTemplate | web-links.js:98 | artist and album joined by `%20`, searching releases; names `artist`, `album` |
| WebLinks.RymSearchTrackTemplate | web-links.js:99 | artist and track joined by `%20`, searching releases; names `artist`, `track` |
| WebLinks.LastFmUrls | web-links.js:26-84 | after a successful fetch, LastFm opens the last.fm page built from the encodeURIComponent-escaped names (first artist, album name, track name) |
| WebLinks.RymUrls | web-links.js:26-93 | after a successful fetch, RYM opens the rateyourmusic.com page built from the slug-escaped names (album pages under the release type, tracks under "single") |
| WebLinks.RymSearchUrls | web-links.js:26-100 | after a successful fetch, RYM search opens a search for the encoded names, among artists or among releases |
| WebLinks.RegistryPlaceholders | web-links.js:30-66 | every shipped link has a template for each supported kind, and every name in it is a key built for that kind, so no shipped template hands a token's own text to the escape |
| WebLinks.ShownItemsOpenUrls | web-links.js:110-142 | when the submenu shows, every item is enabled, and clicking it yields a URL unless the fetch fails or the record has no artist |
| WebLinks.EncodedUnmatchedToken | web-links.js:70-72 | under encodeURIComponent a token whose name is not a key comes out as `%7B`, the name, `%7D` |
| WebLinks.EncodeDelimited | web-links.js:70-72 | encoding a token encodes its braces and leaves its word-character name alone |

## Left out

- Waiting for the host (web-links.js:9-15): the retry every second until the host APIs exist is timing, not computation.
- Building the menu (web-links.js:103-109, 123-129, 143): constructing the items and the submenu, registering them, and `window.open` are calls into the host UI. Only the two predicates and the URL they lead to are modelled.
- The three fetches (web-links.js:145-155) and the asynchrony around them: the host's metadata requests become the functions of a `Provider` parameter. A rejected request is a `Failure` with its reason. The endpoints they call are not part of this model.
- Parsing a URI string and reading its base-62 id (web-links.js:107, 112, 132): the host's URI parser is replaced by a `Uri` value that already carries its kind and id.
- Fetched values that are not strings: the records hold strings. JavaScript's coercion of `undefined`, numbers or objects passed to the escape is not modelled.
- Missing record fields other than the first artist: only an empty artist list is modelled as a failure. A record missing `album`, `info` or `name` is not representable.
- Lone surrogates: a Dafny `char` is a Unicode scalar value, so the URIError that encodeURIComponent raises on a lone surrogate cannot arise.
- RymSlug.LowerChar: only A-Z are lowered. Unicode case mapping is not modelled, so non-ASCII letters keep their case.
- RymSlug.ToLowerCase: its contract is stated for ASCII lowering only, for the reason above.
- The item predicate is modelled as written, although a comment in the source says the host never calls it (web-links.js:111).
