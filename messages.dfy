/** What the bot sends back to a chat. The fixed Russian texts of `MESSAGES`
    stand as keys; the button labels are the three fixed strings. */
module Messages {

  /** The keys of the `MESSAGES` table. */
  datatype MessageKey =
    | NotAuthorized
    | Welcome
    | ChatGptModeOn
    | ChatGptError
    | WeatherError
    | BackToMenu

  /** One outbound reply: a `MESSAGES` text by key, a plain text (the
      assistant's answer or the static weather note), or a live weather
      report. Of the report only the parts that are not floating-point
      numbers or the clock are kept: place, condition text and its emoji. */
  datatype Reply =
    | Keyed(key: MessageKey)
    | Plain(text: string)
    | Report(city: string, country: string, emoji: string, condition: string)

  /** `CHATGPT_BUTTON`, "🤖 ChatGPT" */
  const CHATGPT_BUTTON: string := "\U{1F916} ChatGPT"
  /** `WEATHER_BUTTON`, "🌤️ Погода в Пхукете" */
  const WEATHER_BUTTON: string := "\U{1F324}\U{FE0F} Погода в Пхукете"
  /** `BACK_BUTTON`, "🔙 Назад в меню" */
  const BACK_BUTTON: string := "\U{1F519} Назад в меню"

  /** The three labels are pairwise distinct, so a text selects at most one
      button. */
  lemma ButtonsDistinct()
    ensures CHATGPT_BUTTON != WEATHER_BUTTON
    ensures CHATGPT_BUTTON != BACK_BUTTON
    ensures WEATHER_BUTTON != BACK_BUTTON
  {
    assert CHATGPT_BUTTON[0] != WEATHER_BUTTON[0];
    assert CHATGPT_BUTTON[0] != BACK_BUTTON[0];
    assert WEATHER_BUTTON[0] != BACK_BUTTON[0];
  }
}
