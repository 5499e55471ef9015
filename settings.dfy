/** The configuration constants the modelled code reads (config/settings.example.py). */
module Settings {
  const BaseUrl: string := "https://www.xiaohongshu.com"

  const SearchKeywords: seq<string> := [
    "AI工具推荐", "浏览器插件", "ChatGPT插件", "AI助手",
    "效率工具", "自动化工具", "AI写作工具", "AI绘画工具",
    "小红书工具", "插件推荐", "Chrome插件", "AI生成工具",
    "AI办公", "智能插件", "免费AI工具", "神器推荐"]

  /** SEARCH_INTERVAL is drawn once from 3..6 at start-up. */
  predicate ValidSearchInterval(n: int)
  {
    3 <= n <= 6
  }

  const PublishHours: seq<int> := [8, 12, 21]
  const DailyPublishLimit: nat := 3
  const InspirationThreshold: nat := 3
  const DeepResearchPostLimit: nat := 20
  const DeepResearchCommentLimit: nat := 100

  const ProbTriggerThinking: real := 0.4
  const ProbPostComment: real := 0.7
  const ProbLazyLike: real := 0.2
  const ProbLazyCollect: real := 0.1
  const ProbLike: real := 0.4
  const ProbCollect: real := 0.2
}
