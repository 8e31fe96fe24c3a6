TestResult.DisplayName,TestResult.Outcome,TestResult.Duration,TestResult.ResourceCount,RandomSeed
RUtils.ParseCommaSpaceJoin (correctness),Passed,00:00:00.1221939,249422,1
RUtils.MakeRVector (well-formedness),Passed,00:00:00.1146120,129612,1
RUtils.PrefixedLiteral (well-formedness),Passed,00:00:00.1036088,46664,1
RUtils.NamePrefix (well-formedness),Passed,00:00:00.0716953,13432,1
RUtils.IsTruthy (well-formedness),Passed,00:00:00.0713067,9379,1
RUtils.CommaSpaceJoin (correctness),Passed,00:00:00.0415969,122743,1
RUtils.NamedRVector (correctness),Passed,00:00:00.0365981,151750,1
RUtils.CommaSpaceJoin (well-formedness),Passed,00:00:00.0360593,27831,1
RUtils.PrefixedLiteral (correctness),Passed,00:00:00.0321692,74930,1
RUtils.PaddedHasNoComma (correctness),Passed,00:00:00.0251626,40351,1
RUtils.Padded (well-formedness),Passed,00:00:00.0222925,42339,1
RUtils.ParseBody (well-formedness),Passed,00:00:00.0219722,47623,1
RUtils.CommaFree (well-formedness),Passed,00:00:00.0200361,9346,1
RUtils.PaddedHasNoComma (well-formedness),Passed,00:00:00.0134209,25886,1
RUtils.BodyOfLiteral (correctness),Passed,00:00:00.0114209,22595,1
RUtils.Body (well-formedness),Passed,00:00:00.0105821,13396,1
RUtils.DropSpace (well-formedness),Passed,00:00:00.0062776,9732,1
