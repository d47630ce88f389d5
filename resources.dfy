/**
 * The community blog on the resources page (app/resources/page.tsx):
 * publishing a post from the form and the preview toggle. The simulated
 * upload delay is an immediate step and the confirmation alert is left out.
 */
module Resources {

  const PlaceholderImage: string := "/placeholder.svg?height=400&width=800"
  const ExcerptLength: nat := 120

  datatype BlogForm = BlogForm(title: string, category: string, content: string, image: string)

  datatype Blog = Blog(title: string, excerpt: string, image: string, category: string, date: string, author: string)

  const EmptyForm: BlogForm := BlogForm("", "", "", PlaceholderImage)

  /** `content.substring(0, 120)` followed by "..." when something was cut off. */
  function Excerpt(content: string): (excerpt: string)
    ensures |content| <= ExcerptLength ==> excerpt == content
    ensures |content| > ExcerptLength ==> excerpt == content[..ExcerptLength] + "..."
    ensures |excerpt| <= ExcerptLength + 3
  {
    var head := if |content| <= ExcerptLength then content else content[..ExcerptLength];
    head + (if |content| > ExcerptLength then "..." else "")
  }

  /** What the excerpt shows before any "..." is the start of the content. */
  lemma ExcerptIsPrefix(content: string)
    ensures |content| <= ExcerptLength ==> Excerpt(content) <= content
    ensures |content| > ExcerptLength ==>
              |Excerpt(content)| == ExcerptLength + 3 && Excerpt(content)[..ExcerptLength] <= content
              && Excerpt(content)[ExcerptLength..] == "..."
  {
    if |content| > ExcerptLength {
      assert Excerpt(content)[..ExcerptLength] == content[..ExcerptLength];
    }
  }

  /** `formData.category || "Uncategorized"` */
  function CategoryOrDefault(category: string): (c: string)
    ensures category == "" ==> c == "Uncategorized"
    ensures category != "" ==> c == category
  {
    if category == "" then "Uncategorized" else category
  }

  /** The post a publish builds; the formatted date is supplied. */
  function NewBlog(form: BlogForm, date: string): (b: Blog)
    ensures b.title == form.title && b.image == form.image && b.date == date && b.author == "You"
    ensures b.excerpt == Excerpt(form.content) && b.category == CategoryOrDefault(form.category)
  {
    Blog(form.title, Excerpt(form.content), form.image, CategoryOrDefault(form.category), date, "You")
  }

  const SampleBlogs: seq<Blog> := [
    Blog("How I Paid Off $50,000 in Student Loans",
         "My personal journey to becoming debt-free and the strategies that worked for me.",
         "/placeholder.svg?height=200&width=400", "Debt Management", "May 18, 2023", "Jennifer K."),
    Blog("Investing in Index Funds: My 5-Year Results",
         "A breakdown of my investment strategy and the results I've seen over the past five years.",
         "/placeholder.svg?height=200&width=400", "Investing", "May 12, 2023", "Michael T."),
    Blog("My Minimalist Budget System",
         "How I simplified my finances with a minimalist approach to budgeting and saving.",
         "/placeholder.svg?height=200&width=400", "Budgeting", "May 8, 2023", "Sarah L.")
  ]

  class ResourcesPage {
    var showBlogForm: bool
    var formData: BlogForm
    var isSubmitting: bool
    var previewMode: bool
    var communityBlogs: seq<Blog>

    constructor ()
      ensures !showBlogForm && formData == EmptyForm && !isSubmitting && !previewMode
      ensures communityBlogs == SampleBlogs
    {
      showBlogForm := false;
      formData := EmptyForm;
      isSubmitting := false;
      previewMode := false;
      communityBlogs := SampleBlogs;
    }

    /** `handleCategoryChange` */
    method HandleCategoryChange(value: string)
      modifies this
      ensures formData == old(formData).(category := value)
      ensures communityBlogs == old(communityBlogs) && previewMode == old(previewMode)
      ensures showBlogForm == old(showBlogForm) && isSubmitting == old(isSubmitting)
    {
      formData := formData.(category := value);
    }

    /** `handleSubmit`, with the formatted current date supplied. */
    method HandleSubmit(date: string)
      modifies this
      ensures communityBlogs == [NewBlog(old(formData), date)] + old(communityBlogs)
      ensures formData == EmptyForm
      ensures !showBlogForm && !previewMode && !isSubmitting
    {
      isSubmitting := true;
      var newBlog := NewBlog(formData, date);
      communityBlogs := [newBlog] + communityBlogs;
      formData := EmptyForm;
      showBlogForm := false;
      previewMode := false;
      isSubmitting := false;
    }

    /** `togglePreview` */
    method TogglePreview()
      modifies this
      ensures previewMode == !old(previewMode)
      ensures formData == old(formData) && communityBlogs == old(communityBlogs)
      ensures showBlogForm == old(showBlogForm) && isSubmitting == old(isSubmitting)
    {
      previewMode := !previewMode;
    }
  }

  /** Toggling the preview twice leaves it as it was. */
  method TogglePreviewTwice(page: ResourcesPage)
    modifies page
    ensures page.previewMode == old(page.previewMode)
    ensures page.formData == old(page.formData) && page.communityBlogs == old(page.communityBlogs)
  {
    page.TogglePreview();
    page.TogglePreview();
  }
}
