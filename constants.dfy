/** The rotating messages shown while a plan is being generated (constants.ts). */
module Constants {

  const LoadingMessages: seq<string> := [
    "Analyzing your vibe... ✨",
    "Finding patterns in your pins... 📌",
    "Turning aesthetic ideas into real steps... 🌸",
    "Organizing your future habits... 🍵",
    "Consulting the inspiration spirits... 🌙",
    "Almost ready for your real-life upgrade... 🚀"
  ]
}
