/** The shapes of the ECS records the program reads. Pointer-valued fields that the
    source reads through `aws.ToString` are plain strings here, with "" for nil. */
module EcsTypes {

  datatype Container = Container(name: string, runtimeId: string)

  datatype Attribute = Attribute(name: string, value: string)

  datatype Tag = Tag(key: string, value: string)

  /** `types.Task`; `createdAt` is the creation time already rendered as RFC 3339 in
      local time, and `launchType` the string form of the launch type. */
  datatype Task = Task(
    taskArn: string,
    taskDefinitionArn: string,
    containerInstanceArn: string,
    lastStatus: string,
    desiredStatus: string,
    createdAt: string,
    group: string,
    launchType: string,
    containers: seq<Container>,
    attributes: seq<Attribute>,
    tags: seq<Tag>)
}
