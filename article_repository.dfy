/** data/repository/ArticleRepository.kt: list articles and read one. */
module ArticleRepository {
  import opened Wrappers
  import opened Domain
  import opened Dto
  import opened Envelope

  /** The article mapping: a field-for-field copy. */
  function ToArticle(dto: ArticleDto): (a: Article)
    ensures a.id == dto.id && a.title == dto.title && a.content == dto.content
    ensures a.publishedDate == dto.publishedDate && a.createdAt == dto.createdAt && a.updatedAt == dto.updatedAt
  {
    Article(dto.id, dto.title, dto.content, dto.publishedDate, dto.createdAt, dto.updatedAt)
  }

  /** getArticles (page and limit only shape the request). */
  function GetArticles(response: Response<ArticlesResponseDto>): (res: Result<seq<Article>, string>)
    ensures res.Success? <==> Accepted(response)
    ensures Accepted(response) && BodyData(response).None? ==> res == Success([])
    ensures Accepted(response) && BodyData(response).Some? ==> InOrder(ToArticle, BodyData(response).value.articles, res.value)
    ensures response.Resp? && !Accepted(response) ==> res == Failure(Rejection(response, "Gagal mengambil artikel"))
    ensures response.Exn? ==> res == Failure(ConnectionFailure(response.exnMessage))
  {
    Many(response, (p: ArticlesResponseDto) => p.articles, ToArticle, "Gagal mengambil artikel")
  }

  function GetArticleById(response: Response<ArticleDto>): (res: Result<Article, string>)
    ensures res.Success? <==> Accepted(response) && BodyData(response).Some?
    ensures res.Success? ==> res.value == ToArticle(BodyData(response).value)
    ensures Accepted(response) && BodyData(response).None? ==> res == Failure("Data artikel tidak valid")
    ensures response.Resp? && !Accepted(response) ==> res == Failure(Rejection(response, "Gagal mengambil artikel"))
    ensures response.Exn? ==> res == Failure(ConnectionFailure(response.exnMessage))
  {
    Single(response, ToArticle, "Data artikel tidak valid", "Gagal mengambil artikel")
  }
}
