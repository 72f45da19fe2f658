/** The course list: a card per course. */
module Cursos {
  import opened Wrappers
  import opened ContentList

  datatype CourseRecord = CourseRecord(
    id: string,
    title: Option<string>,
    teacherName: Option<string>,
    categoryName: Option<string>,
    poster: Option<string>,
    banner: Option<string>)

  /** The course card: the title or "", the teacher else the category else "", the poster else the banner. */
  function CourseCard(base: string, c: CourseRecord): (r: ContentCard)
    ensures r.cardType == Course && r.id == c.id
    ensures r.title != "" <==> Truthy(c.title)
    ensures r.title != "" ==> c.title == Some(r.title)
    ensures r.subtitle != "" <==> Truthy(c.teacherName) || Truthy(c.categoryName)
    ensures Truthy(c.teacherName) ==> r.subtitle == c.teacherName.value
    ensures !Truthy(c.teacherName) && Truthy(c.categoryName) ==> r.subtitle == c.categoryName.value
    ensures r.image == PickImage(base, c.poster, c.banner)
  {
    ContentCard(c.id, OrEmpty(c.title), OrEmpty(Or(c.teacherName, c.categoryName)),
                PickImage(base, c.poster, c.banner), Course)
  }
}
