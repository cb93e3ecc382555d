/** The resource grid of the resources page (components/resources/resource-grid.tsx)
    and its file-type icon, which tests the type substrings in another order
    than the course view does. */
module ResourceGrid {
  import opened Common
  import CourseResources

  type FileIcon = CourseResources.FileIcon

  /** `getFileIcon`: "video" first, then "image", then "pdf" or "document". */
  function GetFileIcon(fileType: string): (icon: FileIcon)
    ensures icon == CourseResources.VideoIcon <==> Includes(fileType, "video")
    ensures icon == CourseResources.ImageIcon <==> !Includes(fileType, "video") && Includes(fileType, "image")
    ensures icon == CourseResources.DocumentIcon <==>
      !Includes(fileType, "video") && !Includes(fileType, "image")
      && (Includes(fileType, "pdf") || Includes(fileType, "document"))
    ensures icon == CourseResources.GenericIcon <==>
      !Includes(fileType, "video") && !Includes(fileType, "image")
      && !Includes(fileType, "pdf") && !Includes(fileType, "document")
  {
    if Includes(fileType, "video") then CourseResources.VideoIcon
    else if Includes(fileType, "image") then CourseResources.ImageIcon
    else if Includes(fileType, "pdf") || Includes(fileType, "document") then CourseResources.DocumentIcon
    else CourseResources.GenericIcon
  }

  /** A type naming both "pdf" and "video" gets the document icon in the
      course view and the video icon here. */
  lemma PriorityDiffersFromCourseView(fileType: string)
    requires Includes(fileType, "pdf") && Includes(fileType, "video")
    ensures CourseResources.GetFileIcon(fileType) == CourseResources.DocumentIcon
    ensures GetFileIcon(fileType) == CourseResources.VideoIcon
  {
  }

  /** A concrete such type. */
  lemma PdfVideoExample()
    ensures CourseResources.GetFileIcon("video/pdf") != GetFileIcon("video/pdf")
  {
    IncludesAt("video/pdf", "video", 0);
    IncludesAt("video/pdf", "pdf", 6);
  }

  /** The two views agree on every type that names at most one of "pdf",
      "video" and "image" and does not name "document". */
  lemma ViewsAgreeOnPlainTypes(fileType: string)
    requires !Includes(fileType, "document")
    requires !(Includes(fileType, "pdf") && Includes(fileType, "video"))
    requires !(Includes(fileType, "pdf") && Includes(fileType, "image"))
    requires !(Includes(fileType, "video") && Includes(fileType, "image"))
    ensures CourseResources.GetFileIcon(fileType) == GetFileIcon(fileType)
  {
  }
}
