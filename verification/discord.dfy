/** The Discord webhook message the bot posts: one embed, or (for GitHub's ping) plain
    content. Absent parts are `None` and are left out of the JSON. */
module Discord {
  import opened Common

  datatype Author = Author(name: string, iconUrl: Option<string>, url: Option<string>)

  /** A named field; `inline` is the layout hint, absent when the bot gives none. */
  datatype Field = Field(name: string, value: string, inline: Option<bool>)

  datatype Footer = Footer(text: string, iconUrl: Option<string>)

  /** An embed. `timestamp` is the time of processing, supplied by the caller. */
  datatype Embed = Embed(
    title: Option<string>,
    url: Option<string>,
    description: Option<string>,
    color: Option<int>,
    timestamp: Option<string>,
    author: Option<Author>,
    fields: Option<seq<Field>>,
    footer: Option<Footer>,
    thumbnail: Option<string>)

  /** The embed with nothing set, from which each translator builds its own. */
  const Blank := Embed(None, None, None, None, None, None, None, None, None)

  /** The JSON document posted to the webhook. */
  datatype Message = Embeds(embeds: seq<Embed>) | Content(content: string)

  const GitHubMark := "https://github.githubassets.com/images/modules/logos_page/GitHub-Mark.png"

  // The colours, fixed per state.
  const Alert := 0xff0000
  const Blurple := 0x7289da
  const Emerald := 0x2ecc71
  const Alizarin := 0xe74c3c
  const Carrot := 0xe67e22
  const Concrete := 0x95a5a6
  const PeterRiver := 0x3498db
  const Amethyst := 0x9b59b6
  const DarkRed := 0x992d22
  const Sunflower := 0xf1c40f
  const Gold := 0xffd700
  const Yellow := 0xffff00
}
