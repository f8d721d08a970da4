/** data/repository/CategoryRepository.kt: create, list and delete categories. */
module CategoryRepository {
  import opened Wrappers
  import opened Domain
  import opened Dto
  import opened Envelope

  /** `mapOf("name" to name, "type" to type)`. */
  function CreateCategoryBody(name: string, categoryType: string): (body: map<string, BodyValue>)
    ensures body.Keys == {"name", "type"}
    ensures body["name"] == StringValue(name) && body["type"] == StringValue(categoryType)
  {
    map["name" := StringValue(name), "type" := StringValue(categoryType)]
  }

  function CreateCategory(response: Response<CategoryDto>): (res: Result<Category, string>)
    ensures res.Success? <==> Accepted(response) && BodyData(response).Some?
    ensures res.Success? ==> res.value == ToCategory(BodyData(response).value)
    ensures Accepted(response) && BodyData(response).None? ==> res == Failure("Data kategori tidak valid")
    ensures response.Resp? && !Accepted(response) ==> res == Failure(Rejection(response, "Gagal membuat kategori"))
    ensures response.Exn? ==> res == Failure(ConnectionFailure(response.exnMessage))
  {
    Single(response, ToCategory, "Data kategori tidak valid", "Gagal membuat kategori")
  }

  /** A rejected create shows the server's own words, a duplicate-name message say, unaltered. */
  lemma CreateCategoryKeepsServerMessage(response: Response<CategoryDto>, message: string)
    requires response.Resp? && response.body.Some? && response.body.value.message == Some(message)
    requires !response.isSuccessful || !response.body.value.success
    ensures CreateCategory(response) == Failure(message)
  {
  }

  /** getCategories (the `type` filter only shapes the request). */
  function GetCategories(response: Response<seq<CategoryDto>>): (res: Result<seq<Category>, string>)
    ensures res.Success? <==> Accepted(response)
    ensures Accepted(response) && BodyData(response).None? ==> res == Success([])
    ensures Accepted(response) && BodyData(response).Some? ==> InOrder(ToCategory, BodyData(response).value, res.value)
    ensures response.Resp? && !Accepted(response) ==> res == Failure(Rejection(response, "Gagal mengambil kategori"))
    ensures response.Exn? ==> res == Failure(ConnectionFailure(response.exnMessage))
  {
    Many(response, (l: seq<CategoryDto>) => l, ToCategory, "Gagal mengambil kategori")
  }

  function DeleteCategory(response: Response<()>): (res: Result<string, string>)
    ensures res.Success? <==> Accepted(response)
    ensures res.Success? ==> res.value == BodyMessage(response).GetOr("Kategori berhasil dihapus")
    ensures response.Resp? && !Accepted(response) ==> res == Failure(Rejection(response, "Gagal menghapus kategori"))
    ensures response.Exn? ==> res == Failure(ConnectionFailure(response.exnMessage))
  {
    MessageOnly(response, "Kategori berhasil dihapus", "Gagal menghapus kategori")
  }
}
